/** Common online time of two players (apps/api/src/lib/compare-online.ts).  Instants are whole milliseconds. */
module CoPresence {

  import opened Wrappers
  import opened Sequences

  datatype Session = Session(connectedAt: int, disconnectedAt: Option<int>)

  /** Half-open. */
  datatype Interval = Interval(start: int, end: int)

  predicate In(i: Interval, t: int) { i.start <= t < i.end }

  ghost predicate Covers(s: seq<Interval>, t: int) { exists k :: 0 <= k < |s| && In(s[k], t) }

  ghost predicate CoversFrom(s: seq<Interval>, i: nat, t: int) { exists k :: i <= k < |s| && In(s[k], t) }

  predicate Proper(s: seq<Interval>) { forall k :: 0 <= k < |s| ==> s[k].start < s[k].end }

  /** In order, with a gap between neighbours: the maximal stretches of what the list covers. */
  predicate Separated(s: seq<Interval>) {
    Proper(s) && forall k, l :: 0 <= k < l < |s| ==> s[k].end < s[l].start
  }

  function Max(a: int, b: int): int { if a < b then b else a }

  function Min(a: int, b: int): int { if a < b then a else b }

  // ----- clamping

  function EndOf(session: Session, now: int): int {
    if session.disconnectedAt.Some? then session.disconnectedAt.value else now
  }

  /** Some session of the player contains the instant; an open session lasts until now. */
  ghost predicate Online(sessions: seq<Session>, now: int, t: int) {
    exists k :: 0 <= k < |sessions| && sessions[k].connectedAt <= t < EndOf(sessions[k], now)
  }

  method ClampSessions(sessions: seq<Session>, windowStart: int, windowEnd: int, now: int) returns (clamped: seq<Interval>)
    ensures Proper(clamped)
    ensures forall t :: Covers(clamped, t) <==> windowStart <= t < windowEnd && Online(sessions, now, t)
  {
    clamped := [];
    for i := 0 to |sessions|
      invariant Proper(clamped)
      invariant forall t :: Covers(clamped, t) <==> windowStart <= t < windowEnd && Online(sessions[..i], now, t)
    {
      var start := Max(sessions[i].connectedAt, windowStart);
      var end := Min(EndOf(sessions[i], now), windowEnd);
      ghost var before := clamped;
      if end > start {
        clamped := clamped + [Interval(start, end)];
        CoversOneMore(before, Interval(start, end));
      }
      OnlineOneMore(sessions, i, now);
    }
    assert sessions[..|sessions|] == sessions;
  }

  lemma CoversOneMore(s: seq<Interval>, i: Interval)
    ensures forall t :: Covers(s + [i], t) <==> Covers(s, t) || In(i, t)
  {
    forall t
      ensures Covers(s + [i], t) <==> Covers(s, t) || In(i, t)
    {
      assert (s + [i])[|s|] == i;
      if Covers(s, t) {
        var k :| 0 <= k < |s| && In(s[k], t);
        assert In((s + [i])[k], t);
      }
    }
  }

  lemma OnlineOneMore(sessions: seq<Session>, i: nat, now: int)
    requires i < |sessions|
    ensures forall t :: Online(sessions[..i + 1], now, t) <==>
                          Online(sessions[..i], now, t) || sessions[i].connectedAt <= t < EndOf(sessions[i], now)
  {
    var before, after := sessions[..i], sessions[..i + 1];
    forall t
      ensures Online(after, now, t) <==> Online(before, now, t) || sessions[i].connectedAt <= t < EndOf(sessions[i], now)
    {
      assert after[i] == sessions[i];
      if Online(before, now, t) {
        var k :| 0 <= k < |before| && before[k].connectedAt <= t < EndOf(before[k], now);
        assert after[k] == before[k];
      }
    }
  }

  // ----- merging

  predicate ByStart(s: seq<Interval>) { forall k, l :: 0 <= k < l < |s| ==> s[k].start <= s[l].start }

  function SortByStart(s: seq<Interval>): (sorted: seq<Interval>)
    ensures ByStart(sorted) && multiset(sorted) == multiset(s)
  {
    var le := (a: Interval, b: Interval) => a.start <= b.start;
    SortSorts(s, le);
    Sort(s, le)
  }

  lemma SameMembersCoverSame(a: seq<Interval>, b: seq<Interval>)
    requires multiset(a) == multiset(b)
    ensures forall t :: Covers(a, t) <==> Covers(b, t)
    ensures Proper(a) ==> Proper(b)
  {
    assert forall i :: i in a <==> i in multiset(a);
    assert forall i :: i in b <==> i in multiset(b);
    forall t
      ensures Covers(a, t) ==> Covers(b, t)
      ensures Covers(b, t) ==> Covers(a, t)
    {
      if Covers(a, t) {
        var k :| 0 <= k < |a| && In(a[k], t);
        assert a[k] in b;
      }
      if Covers(b, t) {
        var k :| 0 <= k < |b| && In(b[k], t);
        assert b[k] in a;
      }
    }
    if Proper(a) {
      forall k | 0 <= k < |b|
        ensures b[k].start < b[k].end
      {
        assert b[k] in a;
      }
    }
  }

  method MergeIntervals(intervals: seq<Interval>) returns (merged: seq<Interval>)
    requires Proper(intervals)
    ensures Separated(merged)
    ensures forall t :: Covers(merged, t) <==> Covers(intervals, t)
  {
    hide SortByStart;
    if |intervals| == 0 {
      return [];
    }
    var sorted := SortByStart(intervals);
    SameMembersCoverSame(intervals, sorted);
    assert |sorted| == |multiset(sorted)| == |intervals|;
    merged := [sorted[0]];
    assert forall t :: Covers(merged, t) <==> Covers(sorted[..1], t) by { assert sorted[..1] == merged; }
    for i := 1 to |sorted|
      invariant |merged| > 0 && Separated(merged)
      invariant merged[|merged| - 1].start <= sorted[i - 1].start
      invariant forall t :: Covers(merged, t) <==> Covers(sorted[..i], t)
    {
      var current := sorted[i];
      var last := merged[|merged| - 1];
      assert sorted[i - 1].start <= current.start;
      assert sorted[..i + 1] == sorted[..i] + [current];
      CoversOneMore(sorted[..i], current);
      if current.start <= last.end {
        var longer := Interval(last.start, Max(last.end, current.end));
        Lengthen(merged, current, longer);
        merged := merged[|merged| - 1 := longer];
      } else {
        CoversOneMore(merged, current);
        merged := merged + [current];
      }
    }
    assert sorted[..|sorted|] == sorted;
  }

  lemma Lengthen(merged: seq<Interval>, current: Interval, longer: Interval)
    requires |merged| > 0 && current.start <= merged[|merged| - 1].end && merged[|merged| - 1].start <= current.start
    requires longer == Interval(merged[|merged| - 1].start, Max(merged[|merged| - 1].end, current.end))
    ensures forall t :: Covers(merged[|merged| - 1 := longer], t) <==> Covers(merged, t) || In(current, t)
  {
    var n := |merged| - 1;
    var front := merged[..n];
    assert merged == front + [merged[n]] && merged[n := longer] == front + [longer];
    CoversOneMore(front, merged[n]);
    CoversOneMore(front, longer);
  }

  // ----- the sweep

  /** The sweep of `computeCoPresence` over the two merged lists. */
  method Sweep(a: seq<Interval>, b: seq<Interval>) returns (both: seq<Interval>)
    requires Separated(a) && Separated(b)
    ensures Separated(both)
    ensures forall t :: Covers(both, t) <==> Covers(a, t) && Covers(b, t)
  {
    hide Covers, CoversFrom, Sound, Complete, WithMeeting;
    both := [];
    SweepStarts(a, b);
    var i, j := 0, 0;
    while i < |a| && j < |b|
      invariant 0 <= i <= |a| && 0 <= j <= |b|
      invariant Separated(both)
      invariant Sound(a, b, both)
      invariant Complete(a, b, both, i, j)
      invariant both == [] || i == |a| || j == |b| || both[|both| - 1].end < Max(a[i].start, b[j].start)
      decreases |a| - i + |b| - j
    {
      var start := Max(a[i].start, b[j].start);
      var end := Min(a[i].end, b[j].end);
      ghost var before := both;
      Meeting(a[i], b[j], both);
      SoundKept(a, b, i, j, both);
      if start < end {
        both := both + [Interval(start, end)];
      }
      if a[i].end < b[j].end {
        PastA(a, b, before, both, i, j);
        i := i + 1;
      } else {
        PastB(a, b, before, both, i, j);
        j := j + 1;
      }
    }
    SweepEnds(a, b, both, i, j);
  }

  lemma SweepStarts(a: seq<Interval>, b: seq<Interval>)
    ensures Sound(a, b, []) && Complete(a, b, [], 0, 0)
  {}

  lemma SweepEnds(a: seq<Interval>, b: seq<Interval>, both: seq<Interval>, i: nat, j: nat)
    requires Sound(a, b, both) && Complete(a, b, both, i, j) && (i >= |a| || j >= |b|)
    ensures forall t :: Covers(both, t) <==> Covers(a, t) && Covers(b, t)
  {}

  /** What two intervals have in common, added when there is something. */
  lemma Meeting(a: Interval, b: Interval, before: seq<Interval>)
    ensures var common := Interval(Max(a.start, b.start), Min(a.end, b.end));
            WithMeeting(a, b, before, if common.start < common.end then before + [common] else before)
  {
    CoversOneMore(before, Interval(Max(a.start, b.start), Min(a.end, b.end)));
  }

  ghost predicate Sound(a: seq<Interval>, b: seq<Interval>, both: seq<Interval>) {
    forall t :: Covers(both, t) ==> Covers(a, t) && Covers(b, t)
  }

  ghost predicate Complete(a: seq<Interval>, b: seq<Interval>, both: seq<Interval>, i: nat, j: nat) {
    forall t :: Covers(a, t) && Covers(b, t) ==> Covers(both, t) || (CoversFrom(a, i, t) && CoversFrom(b, j, t))
  }

  ghost predicate WithMeeting(a: Interval, b: Interval, before: seq<Interval>, after: seq<Interval>) {
    forall t :: Covers(after, t) <==> Covers(before, t) || (In(a, t) && In(b, t))
  }

  lemma SoundKept(a: seq<Interval>, b: seq<Interval>, i: nat, j: nat, before: seq<Interval>)
    requires i < |a| && j < |b| && Sound(a, b, before)
    ensures Sound(a, b, before + [Interval(Max(a[i].start, b[j].start), Min(a[i].end, b[j].end))])
  {
    CoversOneMore(before, Interval(Max(a[i].start, b[j].start), Min(a[i].end, b[j].end)));
    forall t | In(Interval(Max(a[i].start, b[j].start), Min(a[i].end, b[j].end)), t)
      ensures Covers(a, t) && Covers(b, t)
    {
      assert In(a[i], t) && In(b[j], t);
    }
  }

  /** Once the shorter interval is spent, nothing in it can meet what remains of the other list. */
  lemma PastA(a: seq<Interval>, b: seq<Interval>, before: seq<Interval>, after: seq<Interval>, i: nat, j: nat)
    requires Separated(a) && Separated(b) && i < |a| && j < |b| && a[i].end <= b[j].end
    requires WithMeeting(a[i], b[j], before, after) && Complete(a, b, before, i, j)
    ensures Complete(a, b, after, i + 1, j)
  {
    forall t | Covers(a, t) && Covers(b, t) && !Covers(after, t)
      ensures CoversFrom(a, i + 1, t) && CoversFrom(b, j, t)
    {
      assert CoversFrom(a, i, t) && CoversFrom(b, j, t);
      var k :| i <= k < |a| && In(a[k], t);
      var l :| j <= l < |b| && In(b[l], t);
      assert k == i ==> l == j;
    }
  }

  lemma PastB(a: seq<Interval>, b: seq<Interval>, before: seq<Interval>, after: seq<Interval>, i: nat, j: nat)
    requires Separated(a) && Separated(b) && i < |a| && j < |b| && b[j].end <= a[i].end
    requires WithMeeting(a[i], b[j], before, after) && Complete(a, b, before, i, j)
    ensures Complete(a, b, after, i, j + 1)
  {
    assert Complete(b, a, before, j, i);
    PastA(b, a, before, after, j, i);
  }

  // ----- the result

  datatype Result = Result(totalOverlapSeconds: int, concurrentIntervals: seq<Interval>, concurrentCount: int)

  ghost predicate BothOnline(a: seq<Session>, b: seq<Session>, windowStart: int, windowEnd: int, now: int, t: int) {
    windowStart <= t < windowEnd && Online(a, now, t) && Online(b, now, t)
  }

  /** The intervals are the maximal stretches of the instants at which both are online. */
  ghost predicate AreCommon(intervals: seq<Interval>, a: seq<Session>, b: seq<Session>, windowStart: int, windowEnd: int, now: int) {
    Separated(intervals) && forall t :: Covers(intervals, t) <==> BothOnline(a, b, windowStart, windowEnd, now, t)
  }

  ghost function CommonInstants(a: seq<Session>, b: seq<Session>, windowStart: int, windowEnd: int, now: int): set<int> {
    set t | windowStart <= t < windowEnd && BothOnline(a, b, windowStart, windowEnd, now, t)
  }

  function Seconds(s: seq<Interval>): int {
    if s == [] then 0 else Seconds(s[..|s| - 1]) + (s[|s| - 1].end - s[|s| - 1].start) / 1000
  }

  method ComputeCoPresence(a: seq<Session>, b: seq<Session>, windowStart: int, windowEnd: int, now: int) returns (r: Result)
    ensures AreCommon(r.concurrentIntervals, a, b, windowStart, windowEnd, now)
    ensures r.concurrentCount == |r.concurrentIntervals|
    ensures 0 <= |CommonInstants(a, b, windowStart, windowEnd, now)| - 1000 * r.totalOverlapSeconds <= 999 * r.concurrentCount
  {
    var clampedA := ClampSessions(a, windowStart, windowEnd, now);
    var mergedA := MergeIntervals(clampedA);
    var clampedB := ClampSessions(b, windowStart, windowEnd, now);
    var mergedB := MergeIntervals(clampedB);
    var both := Sweep(mergedA, mergedB);
    var total := 0;
    for i := 0 to |both|
      invariant total == Seconds(both[..i])
    {
      assert both[..i + 1][..i] == both[..i];
      total := total + (both[i].end - both[i].start) / 1000;
    }
    assert both[..|both|] == both;
    MeasureIsCardinality(both);
    SecondsFallShort(both);
    assert CommonInstants(a, b, windowStart, windowEnd, now) == Instants(both);
    r := Result(total, both, |both|);
  }

  function Range(i: Interval): set<int> { set t | i.start <= t < i.end && In(i, t) }

  ghost function Instants(s: seq<Interval>): set<int>
    ensures forall t :: t in Instants(s) <==> Covers(s, t)
  {
    if s == [] then {} else
      var n := |s| - 1;
      assert s == s[..n] + [s[n]];
      CoversOneMore(s[..n], s[n]);
      Instants(s[..n]) + Range(s[n])
  }

  ghost function Measure(s: seq<Interval>): int {
    if s == [] then 0 else Measure(s[..|s| - 1]) + s[|s| - 1].end - s[|s| - 1].start
  }

  lemma {:induction false} RangeSize(start: int, end: int)
    requires start <= end
    ensures |Range(Interval(start, end))| == end - start
    decreases end - start
  {
    if start < end {
      RangeSize(start, end - 1);
      assert forall t :: In(Interval(start, end), t) <==> In(Interval(start, end - 1), t) || t == end - 1;
      assert Range(Interval(start, end)) == Range(Interval(start, end - 1)) + {end - 1};
    } else {
      assert Range(Interval(start, end)) == {};
    }
  }

  lemma {:induction false} MeasureIsCardinality(s: seq<Interval>)
    requires Separated(s)
    ensures Measure(s) == |Instants(s)|
  {
    if s != [] {
      var n := |s| - 1;
      MeasureIsCardinality(s[..n]);
      RangeSize(s[n].start, s[n].end);
      assert Instants(s[..n]) !! Range(s[n]);
    }
  }

  lemma {:induction false} SecondsFallShort(s: seq<Interval>)
    ensures 0 <= Measure(s) - 1000 * Seconds(s) <= 999 * |s|
  {
    if s != [] {
      SecondsFallShort(s[..|s| - 1]);
    }
  }

  // ----- the intervals are determined by the instants

  /** Two separated lists that cover the same instants are the same list. */
  lemma {:induction false} SeparatedIsCanonical(s: seq<Interval>, r: seq<Interval>)
    requires Separated(s) && Separated(r) && forall t :: Covers(s, t) <==> Covers(r, t)
    ensures s == r
  {
    if s == [] || r == [] {
      StartCovered(s);
      StartCovered(r);
    } else {
      FirstAgrees(s, r);
      FirstAgrees(r, s);
      assert s[0] == r[0];
      RestCovers(s);
      RestCovers(r);
      SeparatedIsCanonical(s[1..], r[1..]);
      assert s == [s[0]] + s[1..] && r == [r[0]] + r[1..];
    }
  }

  lemma StartCovered(s: seq<Interval>)
    requires Separated(s)
    ensures s != [] ==> Covers(s, s[0].start) && !Covers(s, s[0].end) && forall t :: Covers(s, t) ==> s[0].start <= t
  {
    if s != [] {
      assert In(s[0], s[0].start);
    }
  }

  lemma FirstAgrees(s: seq<Interval>, r: seq<Interval>)
    requires Separated(s) && Separated(r) && s != [] && r != [] && forall t :: Covers(s, t) <==> Covers(r, t)
    ensures r[0].start <= s[0].start && r[0].end >= s[0].end
  {
    StartCovered(s);
    StartCovered(r);
    assert !Covers(s, r[0].end);
    assert !In(s[0], r[0].end);
  }

  lemma RestCovers(s: seq<Interval>)
    requires Separated(s) && s != []
    ensures Separated(s[1..])
    ensures forall t :: Covers(s[1..], t) <==> Covers(s, t) && !In(s[0], t)
  {
    forall t
      ensures Covers(s[1..], t) <==> Covers(s, t) && !In(s[0], t)
    {
      if Covers(s, t) && !In(s[0], t) {
        var k :| 0 <= k < |s| && In(s[k], t);
        assert s[1..][k - 1] == s[k];
      }
      if Covers(s[1..], t) {
        var k :| 0 <= k < |s| - 1 && In(s[1..][k], t);
        assert s[1..][k] == s[k + 1];
      }
    }
  }

  /** So the order of the two players does not matter, and neither does that of their sessions. */
  lemma CommonIntervalsAreUnique(s: seq<Interval>, r: seq<Interval>, a: seq<Session>, b: seq<Session>, c: seq<Session>, d: seq<Session>,
                                 windowStart: int, windowEnd: int, now: int)
    requires AreCommon(s, a, b, windowStart, windowEnd, now) && AreCommon(r, c, d, windowStart, windowEnd, now)
    requires (c == b && d == a) || (multiset(c) == multiset(a) && multiset(d) == multiset(b))
    ensures s == r
  {
    if !(c == b && d == a) {
      SameSessionsOnlineSame(a, c, now);
      SameSessionsOnlineSame(b, d, now);
    }
    SeparatedIsCanonical(s, r);
  }

  lemma SameSessionsOnlineSame(a: seq<Session>, c: seq<Session>, now: int)
    requires multiset(a) == multiset(c)
    ensures forall t :: Online(a, now, t) <==> Online(c, now, t)
  {
    assert forall x :: x in a <==> x in multiset(a);
    assert forall x :: x in c <==> x in multiset(c);
    forall t
      ensures Online(a, now, t) <==> Online(c, now, t)
    {
      if Online(a, now, t) {
        var k :| 0 <= k < |a| && a[k].connectedAt <= t < EndOf(a[k], now);
        assert a[k] in c;
      }
      if Online(c, now, t) {
        var k :| 0 <= k < |c| && c[k].connectedAt <= t < EndOf(c[k], now);
        assert c[k] in a;
      }
    }
  }
}
