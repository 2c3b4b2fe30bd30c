/**
  The five-field cron matcher (packages/shared-types/src/cron5.ts).

  Instants are whole numbers of milliseconds, minutes and days count from the epoch.  The calendar
  is a parameter: any month, day of month and day of week for each day number.  Only the minimum
  interval needs to know the day of the week of each day.
 */
module Cron5 {

  import opened Wrappers

  const MINUTES_PER_DAY := 1440
  const MS_PER_MINUTE := 60_000

  type Field = Option<seq<int>>

  datatype Expression = Expression(
    minute: Field,
    hour: Field,
    dayOfMonth: Field,
    month: Field,
    dayOfWeek: Field,
    dayOfMonthStar: bool,
    dayOfWeekStar: bool
  )

  datatype Calendar = Calendar(month: int -> int, dayOfMonth: int -> int, dayOfWeek: int -> int)

  function DayOf(minute: int): int { minute / MINUTES_PER_DAY }

  function HourOf(minute: int): int { minute % MINUTES_PER_DAY / 60 }

  function MinuteOf(minute: int): int { minute % MINUTES_PER_DAY % 60 }

  function FloorToMinute(ms: int): int { ms / MS_PER_MINUTE }

  predicate Allows(f: Field, n: int) { f.Some? ==> n in f.value }

  // ----- the two matchers

  predicate TimeMatches(e: Expression, minute: int) {
    Allows(e.minute, MinuteOf(minute)) && Allows(e.hour, HourOf(minute))
  }

  /** `cron5Matches`: the meaning of an expression, minute by minute. */
  predicate Matches(e: Expression, cal: Calendar, minute: int) {
    var day := DayOf(minute);
    var dom, dow := cal.dayOfMonth(day), cal.dayOfWeek(day);
    if e.minute.Some? && MinuteOf(minute) !in e.minute.value then false
    else if e.hour.Some? && HourOf(minute) !in e.hour.value then false
    else if e.month.Some? && cal.month(day) !in e.month.value then false
    else if e.dayOfMonth.Some? && e.dayOfWeek.Some? && !e.dayOfMonthStar && !e.dayOfWeekStar then
      dom in e.dayOfMonth.value || dow in e.dayOfWeek.value
    else if e.dayOfMonth.Some? && dom !in e.dayOfMonth.value then false
    else if e.dayOfWeek.Some? && dow !in e.dayOfWeek.value then false
    else true
  }

  /** `cron5DayMatches`: the day fields alone, without the star flags. */
  predicate DayMatches(e: Expression, cal: Calendar, day: int) {
    if e.month.Some? && cal.month(day) !in e.month.value then false else
    var domMatches, dowMatches := Allows(e.dayOfMonth, cal.dayOfMonth(day)), Allows(e.dayOfWeek, cal.dayOfWeek(day));
    if e.dayOfMonth.Some? && e.dayOfWeek.Some? then domMatches || dowMatches else domMatches && dowMatches
  }

  /** Both day fields are restricted and one of them was written with a leading star. */
  predicate Mixed(e: Expression) {
    e.dayOfMonth.Some? && e.dayOfWeek.Some? && (e.dayOfMonthStar || e.dayOfWeekStar)
  }

  /**
    The day scan accepts every minute the matcher accepts, and one more kind: for a mixed
    expression, minutes of days on which exactly one of the two day fields matches.
   */
  lemma DayScanAgainstMatcher(e: Expression, cal: Calendar, minute: int)
    ensures Matches(e, cal, minute) ==> DayMatches(e, cal, DayOf(minute)) && TimeMatches(e, minute)
    ensures DayMatches(e, cal, DayOf(minute)) && TimeMatches(e, minute) && !Matches(e, cal, minute)
       <==> && Mixed(e) && TimeMatches(e, minute) && Allows(e.month, cal.month(DayOf(minute)))
            && Allows(e.dayOfMonth, cal.dayOfMonth(DayOf(minute))) != Allows(e.dayOfWeek, cal.dayOfWeek(DayOf(minute)))
  {}

  // ----- the backward scan

  const MAX_LOOKBACK_DAYS := 366 * 5

  /** What a parsed field holds: values in range, in increasing order. */
  predicate Listing(f: Field, lo: int, hi: int) {
    f.Some? ==>
      && f.value != []
      && (forall i :: 0 <= i < |f.value| ==> lo <= f.value[i] <= hi)
      && (forall i, j :: 0 <= i < j < |f.value| ==> f.value[i] < f.value[j])
  }

  predicate Parsed(e: Expression) {
    && Listing(e.minute, 0, 59) && Listing(e.hour, 0, 23) && Listing(e.dayOfMonth, 1, 31)
    && Listing(e.month, 1, 12) && Listing(e.dayOfWeek, 0, 6)
  }

  /** The values of a field, or all of its range, from the largest down. */
  function Candidates(f: Field, hi: nat): (c: seq<int>)
    requires Listing(f, 0, hi)
    ensures forall n :: n in c <==> 0 <= n <= hi && Allows(f, n)
    ensures forall i, j :: 0 <= i < j < |c| ==> c[i] > c[j]
  {
    match f
    case None =>
      var c := seq(hi + 1, i => hi - i);
      assert forall n :: 0 <= n <= hi ==> n in c by { forall n | 0 <= n <= hi ensures n in c { assert n == c[hi - n]; } }
      c
    case Some(values) =>
      var c := seq(|values|, i requires 0 <= i < |values| => values[|values| - 1 - i]);
      assert forall i :: 0 <= i < |values| ==> values[i] == c[|values| - 1 - i];
      c
  }

  function At(day: int, hour: int, minute: int): int { day * MINUTES_PER_DAY + hour * 60 + minute }

  lemma AtParts(day: int, hour: int, minute: int)
    requires 0 <= hour <= 23 && 0 <= minute <= 59
    ensures DayOf(At(day, hour, minute)) == day
    ensures HourOf(At(day, hour, minute)) == hour && MinuteOf(At(day, hour, minute)) == minute
  {
    var m, rest := At(day, hour, minute), hour * 60 + minute;
    assert m == 1440 * day + rest && m == 1440 * (m / 1440) + m % 1440;
    assert m / 1440 == day && m % 1440 == rest;
    assert rest == 60 * (rest / 60) + rest % 60;
  }

  lemma PartsAt(m: int)
    ensures 0 <= HourOf(m) <= 23 && 0 <= MinuteOf(m) <= 59 && m == At(DayOf(m), HourOf(m), MinuteOf(m))
  {
    var rest := m % 1440;
    assert m == 1440 * (m / 1440) + rest && rest == 60 * (rest / 60) + rest % 60;
  }

  /** What the day scan takes for an occurrence. */
  predicate Accepted(e: Expression, cal: Calendar, minute: int) {
    DayMatches(e, cal, DayOf(minute)) && TimeMatches(e, minute)
  }

  /** One day of the scan: its latest time of day that the expression allows and the window admits. */
  method ScanDay(e: Expression, day: int, lo: int, hi: int) returns (r: Option<int>)
    requires Parsed(e)
    ensures r.Some? ==> lo <= r.value <= hi && DayOf(r.value) == day && TimeMatches(e, r.value)
    ensures forall m | lo <= m <= hi && DayOf(m) == day && TimeMatches(e, m) :: r.Some? && m <= r.value
  {
    var hours, minutes := Candidates(e.hour, 23), Candidates(e.minute, 59);
    var a := 0;
    while a < |hours|
      invariant a <= |hours|
      invariant AllOutside(day, hours[..a], minutes, lo, hi)
    {
      var b := 0;
      while b < |minutes|
        invariant b <= |minutes|
        invariant forall y | 0 <= y < b :: !(lo <= At(day, hours[a], minutes[y]) <= hi)
      {
        var candidate := At(day, hours[a], minutes[b]);
        if lo <= candidate <= hi {
          assert hours[a] in hours && minutes[b] in minutes;
          AtParts(day, hours[a], minutes[b]);
          forall m | lo <= m <= hi && DayOf(m) == day && TimeMatches(e, m)
            ensures m <= candidate
          {
            LatestFirst(e, day, m, hours, minutes, a, b, lo, hi);
          }
          return Some(candidate);
        }
        b := b + 1;
      }
      assert hours[..a + 1] == hours[..a] + [hours[a]];
      a := a + 1;
    }
    assert hours[..a] == hours;
    forall m
      ensures !(lo <= m <= hi && DayOf(m) == day && TimeMatches(e, m))
    {
      NoneLeft(e, day, m, hours, minutes, lo, hi);
    }
    r := None;
  }

  predicate AllOutside(day: int, hours: seq<int>, minutes: seq<int>, lo: int, hi: int) {
    forall x, y | 0 <= x < |hours| && 0 <= y < |minutes| :: !(lo <= At(day, hours[x], minutes[y]) <= hi)
  }

  lemma NoneLeft(e: Expression, day: int, m: int, hours: seq<int>, minutes: seq<int>, lo: int, hi: int)
    requires Parsed(e) && hours == Candidates(e.hour, 23) && minutes == Candidates(e.minute, 59)
    requires AllOutside(day, hours, minutes, lo, hi)
    ensures !(lo <= m <= hi && DayOf(m) == day && TimeMatches(e, m))
  {
    PartsAt(m);
    if HourOf(m) in hours && MinuteOf(m) in minutes {
      var x :| 0 <= x < |hours| && hours[x] == HourOf(m);
      var y :| 0 <= y < |minutes| && minutes[y] == MinuteOf(m);
      assert !(lo <= At(day, hours[x], minutes[y]) <= hi);
    }
  }

  /** The candidates are tried from the latest down. */
  lemma LatestFirst(e: Expression, day: int, m: int, hours: seq<int>, minutes: seq<int>, a: nat, b: nat, lo: int, hi: int)
    requires Parsed(e) && hours == Candidates(e.hour, 23) && minutes == Candidates(e.minute, 59)
    requires a < |hours| && b < |minutes| && AllOutside(day, hours[..a], minutes, lo, hi)
    requires forall y | 0 <= y < b :: !(lo <= At(day, hours[a], minutes[y]) <= hi)
    requires lo <= m <= hi && DayOf(m) == day && TimeMatches(e, m)
    ensures m <= At(day, hours[a], minutes[b])
  {
    hide Candidates;
    PartsAt(m);
    var x :| 0 <= x < |hours| && hours[x] == HourOf(m);
    var y :| 0 <= y < |minutes| && minutes[y] == MinuteOf(m);
    assert forall z | 0 <= z < a :: hours[..a][z] == hours[z];
    assert m == At(day, hours[x], minutes[y]);
    assert a <= x && (x == a ==> b <= y);
    assert minutes[b] in minutes && minutes[y] in minutes;
    assert x > a ==> hours[x] < hours[a];
  }

  /** The greatest accepted minute of the floored window; none means there is none within the lookback. */
  ghost predicate IsLastAccepted(e: Expression, cal: Calendar, from: int, to: int, r: Option<int>) {
    && (from > to ==> r.None?)
    && (r.Some? ==>
          && FloorToMinute(from) <= r.value <= FloorToMinute(to) && Accepted(e, cal, r.value)
          && forall m | r.value < m <= FloorToMinute(to) :: !Accepted(e, cal, m))
    && (r.None? && from <= to ==>
          forall m | FloorToMinute(from) <= m <= FloorToMinute(to) && DayOf(FloorToMinute(to)) - DayOf(m) < MAX_LOOKBACK_DAYS ::
            !Accepted(e, cal, m))
  }

  /**
    `findLastCron5Occurrence`: the latest accepted minute of the window, looking back no further
    than the day limit.  Unless the expression is mixed, accepted means matched.
   */
  method FindLastOccurrence(e: Expression, cal: Calendar, from: int, to: int) returns (r: Option<int>)
    requires Parsed(e)
    ensures IsLastAccepted(e, cal, from, to, r)
    ensures !Mixed(e) ==> forall m :: Accepted(e, cal, m) <==> Matches(e, cal, m)
  {
    forall m
      ensures !Mixed(e) ==> (Accepted(e, cal, m) <==> Matches(e, cal, m))
    {
      DayScanAgainstMatcher(e, cal, m);
    }
    if from > to {
      return None;
    }
    var lo, hi := FloorToMinute(from), FloorToMinute(to);
    var day := DayOf(hi);
    var i := 0;
    while i < MAX_LOOKBACK_DAYS && day >= DayOf(lo)
      invariant 0 <= i <= MAX_LOOKBACK_DAYS && day == DayOf(hi) - i
      invariant forall m | lo <= m <= hi && DayOf(m) > day :: !Accepted(e, cal, m)
    {
      if DayMatches(e, cal, day) {
        var found := ScanDay(e, day, lo, hi);
        if found.Some? {
          return found;
        }
      }
      day := day - 1;
      i := i + 1;
    }
    r := None;
  }

  /** Days of the week, in a calendar whose day 0 is a Thursday. */
  ghost predicate Weekly(cal: Calendar) { forall day :: cal.dayOfWeek(day) == (day + 4) % 7 }

  const DECEMBER_2024 := 20058   // the day number of its first day, a Sunday

  ghost predicate ShowsDecember2024(cal: Calendar) {
    && Weekly(cal)
    && forall day | DECEMBER_2024 <= day < DECEMBER_2024 + 31 :: cal.month(day) == 12 && cal.dayOfMonth(day) == day - DECEMBER_2024 + 1
  }

  /**
    The case is real.  At midnight, on every thirtieth day from the first and on Mondays: asked for
    the minute that starts Sunday the first of December 2024, in any calendar that has that month
    right, the scan can only return it, though it is no occurrence.
   */
  lemma MixedScanFindsNonOccurrence(cal: Calendar, r: Option<int>)
    requires ShowsDecember2024(cal)
    ensures var e := Expression(Some([0]), Some([0]), Some([1, 31]), None, Some([1]), true, false);
            var minute := At(DECEMBER_2024, 0, 0);
            var from, to := minute * MS_PER_MINUTE, minute * MS_PER_MINUTE;
            && Parsed(e) && Mixed(e) && !Matches(e, cal, minute)
            && (IsLastAccepted(e, cal, from, to, r) ==> r == Some(minute))
  {
    var e := Expression(Some([0]), Some([0]), Some([1, 31]), None, Some([1]), true, false);
    var minute := At(DECEMBER_2024, 0, 0);
    AtParts(DECEMBER_2024, 0, 0);
    assert cal.dayOfMonth(DECEMBER_2024) == 1 && cal.dayOfWeek(DECEMBER_2024) == 0;
    assert Allows(e.dayOfMonth, 1) && !Allows(e.dayOfWeek, 0) && 0 in [0];
    assert Accepted(e, cal, minute);
    assert FloorToMinute(minute * MS_PER_MINUTE) == minute;
  }

  ghost predicate InBounds(cal: Calendar) {
    forall day :: 1 <= cal.month(day) <= 12 && 1 <= cal.dayOfMonth(day) <= 31 && 0 <= cal.dayOfWeek(day) <= 6
  }

  predicate Full(f: Field, lo: int, hi: int) { forall n | lo <= n <= hi :: Allows(f, n) }

  ghost predicate ScanAgrees(e: Expression) {
    forall cal: Calendar, m: int | InBounds(cal) :: Accepted(e, cal, m) <==> Matches(e, cal, m)
  }

  /**
    Exactly when the scan and the matcher agree on every minute of every calendar: when it is not the
    case that both day fields are restricted and one starts with a star, or when both list every day.
   */
  lemma ScanAgreesExactly(e: Expression)
    requires Parsed(e)
    ensures ScanAgrees(e) <==> !Mixed(e) || (Full(e.dayOfMonth, 1, 31) && Full(e.dayOfWeek, 0, 6))
  {
    if !Mixed(e) || (Full(e.dayOfMonth, 1, 31) && Full(e.dayOfWeek, 0, 6)) {
      forall cal: Calendar, m: int | InBounds(cal)
        ensures Accepted(e, cal, m) <==> Matches(e, cal, m)
      {
        DayScanAgainstMatcher(e, cal, m);
        var dom, dow := cal.dayOfMonth(DayOf(m)), cal.dayOfWeek(DayOf(m));
        assert Mixed(e) ==> Allows(e.dayOfMonth, dom) && Allows(e.dayOfWeek, dow);
      }
    } else {
      var cal, m := Disagreement(e);
      assert !(Accepted(e, cal, m) <==> Matches(e, cal, m));
    }
  }

  lemma Disagreement(e: Expression) returns (cal: Calendar, m: int)
    requires Parsed(e) && Mixed(e) && !(Full(e.dayOfMonth, 1, 31) && Full(e.dayOfWeek, 0, 6))
    ensures InBounds(cal) && Accepted(e, cal, m) && !Matches(e, cal, m)
  {
    var dom, dow := e.dayOfMonth.value[0], e.dayOfWeek.value[0];
    if !Full(e.dayOfMonth, 1, 31) {
      dom :| 1 <= dom <= 31 && !Allows(e.dayOfMonth, dom);
    } else {
      dow :| 0 <= dow <= 6 && !Allows(e.dayOfWeek, dow);
    }
    var month := if e.month.Some? then e.month.value[0] else 1;
    var hour := if e.hour.Some? then e.hour.value[0] else 0;
    var minute := if e.minute.Some? then e.minute.value[0] else 0;
    cal := Calendar(day => month, day => dom, day => dow);
    m := At(0, hour, minute);
    AtParts(0, hour, minute);
    DayScanAgainstMatcher(e, cal, m);
  }

  // ----- expansion and the minimum interval

  /** `expandCron5Occurrences`: every matching minute of the window, up to the iteration cap. */
  method Expand(e: Expression, cal: Calendar, from: int, to: int, maxIterations: nat) returns (occurrences: seq<int>)
    ensures Increasing(occurrences)
    ensures forall m :: m in occurrences <==>
              FloorToMinute(from) <= m <= FloorToMinute(to) && m < FloorToMinute(from) + maxIterations && Matches(e, cal, m)
  {
    occurrences := [];
    var start := FloorToMinute(from);
    var cursor := start;
    var iterations := 0;
    while cursor * MS_PER_MINUTE <= to && iterations < maxIterations
      invariant 0 <= iterations <= maxIterations && cursor == start + iterations
      invariant Increasing(occurrences) && forall i :: 0 <= i < |occurrences| ==> occurrences[i] < cursor
      invariant forall m :: m in occurrences <==> start <= m < cursor && m <= FloorToMinute(to) && Matches(e, cal, m)
    {
      if Matches(e, cal, cursor) {
        occurrences := occurrences + [cursor];
      }
      cursor := cursor + 1;
      iterations := iterations + 1;
    }
  }

  predicate Increasing(s: seq<int>) { forall i, j :: 0 <= i < j < |s| ==> s[i] < s[j] }

  /** Two occurrences with none between them. */
  ghost predicate Consecutive(e: Expression, cal: Calendar, m: int, n: int) {
    m < n && Matches(e, cal, m) && Matches(e, cal, n) && forall k | m < k < n :: !Matches(e, cal, k)
  }

  ghost predicate SmallestGap(e: Expression, cal: Calendar, gap: int) {
    && (exists m, n :: Consecutive(e, cal, m, n) && n - m == gap)
    && forall m, n | Consecutive(e, cal, m, n) :: gap <= n - m
  }

  const PROBE_START_DAY := DECEMBER_2024
  const PROBE_START := PROBE_START_DAY * MINUTES_PER_DAY
  const PROBE_MINUTES := 31 * 24 * 60

  predicate InProbe(m: int) { PROBE_START <= m < PROBE_START + PROBE_MINUTES }

  /**
    `minCron5IntervalMinutes`.  In general it knows the probe window only; for an expression in which
    months and days of the month do not matter it is the smallest gap over all time.
   */
  method MinInterval(e: Expression, cal: Calendar) returns (r: Option<int>)
    requires Parsed(e)
    ensures r.None? ==> forall m, n | InProbe(m) && InProbe(n) && Matches(e, cal, m) && Matches(e, cal, n) :: m == n
    ensures r.Some? ==> exists m, n :: InProbe(m) && InProbe(n) && Consecutive(e, cal, m, n) && n - m == r.value
    ensures r.Some? ==> forall m, n | InProbe(m) && InProbe(n) && Consecutive(e, cal, m, n) :: r.value <= n - m
    ensures FreeDays(e, cal) ==> r.Some? && SmallestGap(e, cal, r.value)
  {
    hide Matches;
    var from := PROBE_START * MS_PER_MINUTE;
    var to := from + (PROBE_MINUTES - 1) * MS_PER_MINUTE;
    assert FloorToMinute(from) == PROBE_START && FloorToMinute(to) == PROBE_START + PROBE_MINUTES - 1;
    var occurrences := Expand(e, cal, from, to, PROBE_MINUTES);
    assert Lists(e, cal, occurrences);
    if |occurrences| < 2 {
      r := None;
    } else {
      var i := SmallestDelta(occurrences);
      r := Some(occurrences[i + 1] - occurrences[i]);
      Adjacent(e, cal, occurrences, i);
      assert occurrences[i] in occurrences && occurrences[i + 1] in occurrences;
      forall m, n | InProbe(m) && InProbe(n) && Consecutive(e, cal, m, n)
        ensures r.value <= n - m
      {
        var k := Neighbours(e, cal, occurrences, m, n);
      }
    }
    ghost var free := FreeDays(e, cal);
    if free {
      ProbeIsEnough(e, cal, r);
    }
  }

  /** The loop that remembers the previous occurrence and keeps the smallest difference. */
  method SmallestDelta(occurrences: seq<int>) returns (at: nat)
    requires |occurrences| >= 2
    ensures at + 1 < |occurrences|
    ensures forall k | 0 <= k < |occurrences| - 1 :: occurrences[at + 1] - occurrences[at] <= occurrences[k + 1] - occurrences[k]
  {
    at := 0;
    var min := occurrences[1] - occurrences[0];
    var i := 1;
    while i + 1 < |occurrences|
      invariant 1 <= i < |occurrences| && at < i && min == occurrences[at + 1] - occurrences[at]
      invariant forall k | 0 <= k < i :: min <= occurrences[k + 1] - occurrences[k]
    {
      var delta := occurrences[i + 1] - occurrences[i];
      if delta < min {
        min, at := delta, i;
      }
      i := i + 1;
    }
  }

  ghost predicate Lists(e: Expression, cal: Calendar, occurrences: seq<int>) {
    Increasing(occurrences) && forall m :: m in occurrences <==> InProbe(m) && Matches(e, cal, m)
  }

  lemma Adjacent(e: Expression, cal: Calendar, occurrences: seq<int>, i: nat)
    requires Lists(e, cal, occurrences) && i + 1 < |occurrences|
    ensures Consecutive(e, cal, occurrences[i], occurrences[i + 1])
  {
    hide Matches;
    assert occurrences[i] in occurrences && occurrences[i + 1] in occurrences;
    forall k | occurrences[i] < k < occurrences[i + 1]
      ensures k !in occurrences
    {
    }
  }

  lemma Neighbours(e: Expression, cal: Calendar, occurrences: seq<int>, m: int, n: int) returns (i: nat)
    requires Lists(e, cal, occurrences) && InProbe(m) && InProbe(n) && Consecutive(e, cal, m, n)
    ensures i + 1 < |occurrences| && occurrences[i] == m && occurrences[i + 1] == n
  {
    hide Matches;
    assert m in occurrences && n in occurrences;
    i :| 0 <= i < |occurrences| && occurrences[i] == m;
    var j :| 0 <= j < |occurrences| && occurrences[j] == n;
    assert i < j;
    assert occurrences[i + 1] in occurrences;
  }

  // Days of the week repeat, and with them the occurrences.

  const WEEK := 7 * MINUTES_PER_DAY

  lemma ShiftParts(m: int, k: int)
    ensures DayOf(m + WEEK * k) == DayOf(m) + 7 * k
    ensures HourOf(m + WEEK * k) == HourOf(m) && MinuteOf(m + WEEK * k) == MinuteOf(m)
  {
    PartsAt(m);
    AtParts(DayOf(m) + 7 * k, HourOf(m), MinuteOf(m));
    assert m + WEEK * k == At(DayOf(m) + 7 * k, HourOf(m), MinuteOf(m));
  }

  /** Both day fields are restricted and neither starts with a star, so that one of them is enough. */
  predicate EitherDay(e: Expression) {
    e.dayOfMonth.Some? && e.dayOfWeek.Some? && !e.dayOfMonthStar && !e.dayOfWeekStar
  }

  /**
    Every month is allowed, and the day of the month does not matter: every one is allowed, or either
    day field is enough and every day of the week is allowed.
   */
  ghost predicate FreeDays(e: Expression, cal: Calendar) {
    && Parsed(e) && InBounds(cal) && Weekly(cal) && Full(e.month, 1, 12)
    && (Full(e.dayOfMonth, 1, 31) || (EitherDay(e) && Full(e.dayOfWeek, 0, 6)))
  }

  lemma DayIsFree(e: Expression, cal: Calendar, day: int)
    requires FreeDays(e, cal)
    ensures Allows(e.month, cal.month(day))
    ensures Allows(e.dayOfMonth, cal.dayOfMonth(day)) || (EitherDay(e) && Allows(e.dayOfWeek, cal.dayOfWeek(day)))
  {}

  lemma Shift(e: Expression, cal: Calendar, m: int, k: int)
    requires FreeDays(e, cal)
    ensures Matches(e, cal, m + WEEK * k) <==> Matches(e, cal, m)
  {
    hide DayOf, HourOf, MinuteOf;
    ShiftParts(m, k);
    var day := DayOf(m);
    DayIsFree(e, cal, day);
    DayIsFree(e, cal, day + 7 * k);
    assert (day + 7 * k + 4) % 7 == (day + 4) % 7;
  }

  /** Some weekday, hour and minute are allowed, and the first week of the probe has them. */
  lemma OccursInFirstWeek(e: Expression, cal: Calendar) returns (m: int)
    requires FreeDays(e, cal)
    ensures PROBE_START <= m < PROBE_START + WEEK && Matches(e, cal, m)
  {
    var weekday := if e.dayOfWeek.Some? then e.dayOfWeek.value[0] else 0;
    var hour := if e.hour.Some? then e.hour.value[0] else 0;
    var minute := if e.minute.Some? then e.minute.value[0] else 0;
    var day := PROBE_START_DAY + weekday;   // the probe starts on a Sunday
    assert (PROBE_START_DAY + 4) % 7 == 0;
    m := At(day, hour, minute);
    AtParts(day, hour, minute);
    DayIsFree(e, cal, day);
  }

  lemma ShiftConsecutive(e: Expression, cal: Calendar, m: int, n: int, k: int)
    requires FreeDays(e, cal) && Consecutive(e, cal, m, n)
    ensures Consecutive(e, cal, m + WEEK * k, n + WEEK * k)
  {
    hide Matches, FreeDays;
    Shift(e, cal, m, k);
    Shift(e, cal, n, k);
    forall x | m + WEEK * k < x < n + WEEK * k
      ensures !Matches(e, cal, x)
    {
      Shift(e, cal, x - WEEK * k, k);
    }
  }

  lemma GapAtMostAWeek(e: Expression, cal: Calendar, m: int, n: int)
    requires FreeDays(e, cal) && Consecutive(e, cal, m, n)
    ensures m < n <= m + WEEK
  {
    hide Matches, FreeDays;
    Shift(e, cal, m, 1);
  }

  /** Every gap between consecutive occurrences is also one inside the probe window. */
  lemma GapOccursInProbe(e: Expression, cal: Calendar, m: int, n: int) returns (m': int, n': int)
    requires FreeDays(e, cal) && Consecutive(e, cal, m, n)
    ensures InProbe(m') && InProbe(n') && Consecutive(e, cal, m', n') && n' - m' == n - m
  {
    hide Matches, FreeDays, Consecutive;
    var k := -((m - PROBE_START) / WEEK);
    ShiftConsecutive(e, cal, m, n, k);
    GapAtMostAWeek(e, cal, m, n);
    m', n' := m + WEEK * k, n + WEEK * k;
    assert PROBE_START <= m' < PROBE_START + WEEK;
  }

  /** So the smallest gap of the probe window is the smallest of all time. */
  lemma ProbeIsEnough(e: Expression, cal: Calendar, r: Option<int>)
    requires FreeDays(e, cal)
    requires r.None? ==> forall m, n | InProbe(m) && InProbe(n) && Matches(e, cal, m) && Matches(e, cal, n) :: m == n
    requires r.Some? ==> exists m, n :: InProbe(m) && InProbe(n) && Consecutive(e, cal, m, n) && n - m == r.value
    requires r.Some? ==> forall m, n | InProbe(m) && InProbe(n) && Consecutive(e, cal, m, n) :: r.value <= n - m
    ensures r.Some? && SmallestGap(e, cal, r.value)
  {
    hide Matches, FreeDays, Consecutive;
    var first := OccursInFirstWeek(e, cal);
    Shift(e, cal, first, 1);
    assert InProbe(first) && InProbe(first + WEEK);
    forall m, n | Consecutive(e, cal, m, n)
      ensures r.value <= n - m
    {
      var m', n' := GapOccursInProbe(e, cal, m, n);
    }
  }

  /** Months are not free: an expression for January has no occurrence in the probe, but gaps of a minute. */
  lemma ProbeMissesOtherMonths(e: Expression, cal: Calendar, day: int, m: int)
    requires e == Expression(None, None, None, Some([1]), None, true, true)
    requires forall d | PROBE_START_DAY <= d < PROBE_START_DAY + 31 :: cal.month(d) == 12
    requires cal.month(day) == 1
    ensures InProbe(m) ==> !Matches(e, cal, m)
    ensures Consecutive(e, cal, At(day, 0, 0), At(day, 0, 1))
  {
    AtParts(day, 0, 0);
    AtParts(day, 0, 1);
    PartsAt(m);
  }
}
