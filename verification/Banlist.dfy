/**
  The published banlist (apps/api/src/lib/banlist-publish.ts) and the separate ban-state fold
  (apps/api/src/lib/moderation-ban-state.ts).  Times are milliseconds; player ids are any totally
  ordered values, here numbers.
 */
module Banlist {

  import opened Wrappers
  import opened Text
  import opened Sequences

  type PlayerId = nat

  datatype Scope = AllActive | PermanentOnly

  /** The columns that are published as they are. */
  datatype Details = Details(steamId64: Option<string>, eosId: Option<string>, nickname: Option<string>,
                             reason: Option<string>, admin: Option<string>)

  datatype Row = Row(player: PlayerId, details: Details, banLength: Option<string>, issuedAt: int, reverted: bool)

  datatype Entry = Entry(details: Details, issuedAt: int, expiresAt: Option<int>)

  // ----- how long a ban lasts

  function UnitMs(unit: char): Option<int> {
    match unit
    case 's' => Some(1_000)
    case 'm' => Some(60_000)
    case 'h' => Some(3_600_000)
    case 'd' => Some(86_400_000)
    case 'w' => Some(604_800_000)
    case 'M' => Some(2_592_000_000)
    case 'y' => Some(31_536_000_000)
    case _ => None
  }

  const MAX_DATE_MS := 8_640_000_000_000_000

  /** `parseBanLengthToExpiry`: the instant the ban ends, or nothing for a permanent one. */
  function Expiry(banLength: Option<string>, issuedAt: int): (r: Option<int>)
    ensures r.Some? && -MAX_DATE_MS <= issuedAt ==> issuedAt < r.value <= MAX_DATE_MS
  {
    var text := Trim(if banLength.Some? then banLength.value else "");
    if text == "" then None
    else
      var last := text[|text| - 1];
      var bare := IsNumber(text);
      var suffixed := !bare && UnitMs(last).Some? && IsNumber(text[..|text| - 1]);
      if !bare && !suffixed then None
      else
        var amount := NumberOf(if bare then text else text[..|text| - 1]);
        var unitMs := if bare then 86_400_000 else UnitMs(last).value;
        if amount == 0 then None
        else
          assert amount * unitMs >= unitMs;
          var end := issuedAt + amount * unitMs;
          if -MAX_DATE_MS <= end <= MAX_DATE_MS then Some(end) else None
  }

  lemma Units(unit: char)
    ensures UnitMs(unit).Some? <==> unit in "smhdwMy"
    ensures UnitMs('s').value == 1000
    ensures UnitMs('m').value == 60 * UnitMs('s').value && UnitMs('h').value == 60 * UnitMs('m').value
    ensures UnitMs('d').value == 24 * UnitMs('h').value && UnitMs('w').value == 7 * UnitMs('d').value
    ensures UnitMs('M').value == 30 * UnitMs('d').value && UnitMs('y').value == 365 * UnitMs('d').value
  {}

  /** What an administrator writes: a number, with a unit or in days. */
  function Length(amount: nat, unit: Option<char>): string { Decimal(amount) + if unit.Some? then [unit.value] else "" }

  /** A written length lasts as long as it says, whatever white space is around it; zero and lengths beyond the dates last for ever. */
  lemma ExpiryOfWritten(amount: nat, unit: Option<char>, text: string, issuedAt: int)
    requires unit.Some? ==> UnitMs(unit.value).Some?
    requires Trim(text) == Length(amount, unit)
    ensures var end := issuedAt + amount * (if unit.Some? then UnitMs(unit.value).value else UnitMs('d').value);
            Expiry(Some(text), issuedAt) == if amount == 0 || !(-MAX_DATE_MS <= end <= MAX_DATE_MS) then None else Some(end)
  {
    hide Decimal, Trim, NumberOf;
    var digits := Decimal(amount);
    if unit.Some? {
      var s := digits + [unit.value];
      assert s[..|s| - 1] == digits && s[|s| - 1] == unit.value && !IsDigit(unit.value);
    } else {
      assert digits + "" == digits;
    }
  }

  /** Anything else is permanent. */
  lemma UnwrittenIsPermanent(text: string, issuedAt: int)
    requires Expiry(Some(text), issuedAt).Some?
    ensures var s := Trim(text);
            s != "" && (IsNumber(s) || (UnitMs(s[|s| - 1]).Some? && IsNumber(s[..|s| - 1])))
  {
    hide Trim, NumberOf;
  }

  function RowExpiry(row: Row): Option<int> { Expiry(row.banLength, row.issuedAt) }

  predicate Active(row: Row, now: int) {
    !row.reverted && (RowExpiry(row).Some? ==> RowExpiry(row).value > now)
  }

  // ----- which row of a player is published

  predicate Candidate(row: Row, scope: Scope, now: int) {
    Active(row, now) && (scope == PermanentOnly ==> RowExpiry(row).None?)
  }

  /** Permanent before temporary, then the later expiry, then the more recent. */
  predicate AtLeast(a: Row, b: Row) {
    match (RowExpiry(a), RowExpiry(b))
    case (None, None) => a.issuedAt >= b.issuedAt
    case (None, Some(_)) => true
    case (Some(_), None) => false
    case (Some(x), Some(y)) => x > y || (x == y && a.issuedAt >= b.issuedAt)
  }

  predicate IsChosen(row: Row, rows: seq<Row>, p: PlayerId, scope: Scope, now: int) {
    && row in rows && row.player == p && Candidate(row, scope, now)
    && forall r | r in rows && r.player == p && Candidate(r, scope, now) :: AtLeast(row, r)
  }

  /** The published row is permanent if any candidate is; otherwise none ends later; and of those none is more recent. */
  lemma ChosenExactly(row: Row, rows: seq<Row>, p: PlayerId, scope: Scope, now: int, other: Row)
    requires IsChosen(row, rows, p, scope, now) && other in rows && other.player == p && Candidate(other, scope, now)
    ensures var x, y := Expiry(row.banLength, row.issuedAt), Expiry(other.banLength, other.issuedAt);
            && (y.None? ==> x.None?)
            && (x.Some? && y.Some? ==> x.value >= y.value)
            && (x == y ==> row.issuedAt >= other.issuedAt)
  {
    hide Expiry;
  }

  /** Who is a candidate: not reverted, not over, and permanent if only those are asked for. */
  lemma CandidateExactly(row: Row, scope: Scope, now: int)
    ensures var end := Expiry(row.banLength, row.issuedAt);
            Candidate(row, scope, now) <==> !row.reverted && (end.None? || (end.value > now && scope == AllActive))
  {
    hide Expiry;
  }

  function EntryOf(row: Row): Entry { Entry(row.details, row.issuedAt, RowExpiry(row)) }

  predicate Describes(e: Entry, row: Row) {
    e.details == row.details && e.issuedAt == row.issuedAt && e.expiresAt == Expiry(row.banLength, row.issuedAt)
  }

  lemma EntryDescribes(e: Entry, row: Row)
    ensures Describes(e, row) <==> e == EntryOf(row)
  {
    hide Expiry;
  }

  predicate RecentFirst(rows: seq<Row>) { forall i, j :: 0 <= i < j < |rows| ==> rows[i].issuedAt >= rows[j].issuedAt }

  function SortRecentFirst(rows: seq<Row>): (sorted: seq<Row>)
    ensures RecentFirst(sorted) && forall r :: r in sorted <==> r in rows
  {
    var le := (a: Row, b: Row) => a.issuedAt >= b.issuedAt;
    SortSorts(rows, le);
    SortedMembers(rows, le);
    Sort(rows, le)
  }

  /** The body of the per-player loop. */
  method Choose(rows: seq<Row>, p: PlayerId, scope: Scope, now: int) returns (chosen: Option<Row>)
    requires forall r :: r in rows ==> r.player == p && !r.reverted
    ensures chosen.None? ==> forall r :: r in rows ==> !Candidate(r, scope, now)
    ensures chosen.Some? ==> IsChosen(chosen.value, rows, p, scope, now)
  {
    hide Expiry, SortRecentFirst;
    var sorted := SortRecentFirst(rows);
    var candidates: seq<Row> := [];
    for i := 0 to |sorted|
      invariant RecentFirst(candidates)
      invariant forall r :: r in candidates <==> r in sorted[..i] && Candidate(r, scope, now)
      invariant candidates != [] && i < |sorted| ==> candidates[|candidates| - 1].issuedAt >= sorted[i].issuedAt
    {
      if Candidate(sorted[i], scope, now) {
        candidates := candidates + [sorted[i]];
      }
    }
    if candidates == [] {
      return None;
    }
    var best := Best(candidates);
    chosen := Some(best);
  }

  /** The first permanent candidate, or else the first of those that end last. */
  method Best(candidates: seq<Row>) returns (best: Row)
    requires candidates != [] && RecentFirst(candidates)
    ensures best in candidates && forall r :: r in candidates ==> AtLeast(best, r)
  {
    hide Expiry;
    var i := 0;
    while i < |candidates| && RowExpiry(candidates[i]).Some?
      invariant 0 <= i <= |candidates|
      invariant forall k :: 0 <= k < i ==> RowExpiry(candidates[k]).Some?
    {
      i := i + 1;
    }
    if i < |candidates| {
      best := candidates[i];
      forall k | 0 <= k < |candidates|
        ensures AtLeast(best, candidates[k])
      {}
    } else {
      best := candidates[0];
      var k := 1;
      while k < |candidates|
        invariant 1 <= k <= |candidates| && best in candidates[..k]
        invariant forall l :: 0 <= l < k ==> AtLeast(best, candidates[l])
      {
        if RowExpiry(candidates[k]).value > RowExpiry(best).value {
          best := candidates[k];
        }
        k := k + 1;
      }
    }
  }

  // ----- the whole list

  /** A player's rows that were not reverted. */
  function RowsOf(rows: seq<Row>, p: PlayerId): (r: seq<Row>)
    ensures forall x :: x in r <==> x in rows && x.player == p && !x.reverted
  {
    if rows == [] then []
    else
      var last := rows[|rows| - 1];
      assert rows == rows[..|rows| - 1] + [last];
      RowsOf(rows[..|rows| - 1], p) + if last.player == p && !last.reverted then [last] else []
  }

  predicate Increasing(s: seq<PlayerId>) { forall i, j :: 0 <= i < j < |s| ==> s[i] < s[j] }

  predicate HasCandidate(rows: seq<Row>, p: PlayerId, scope: Scope, now: int) {
    exists i :: 0 <= i < |rows| && rows[i].player == p && Candidate(rows[i], scope, now)
  }

  ghost predicate EntryFor(e: Entry, rows: seq<Row>, p: PlayerId, scope: Scope, now: int) {
    exists row :: IsChosen(row, rows, p, scope, now) && Describes(e, row)
  }

  /** One entry per player with a candidate row, in the order of the players. */
  ghost predicate Publishes(out: seq<Entry>, ids: seq<PlayerId>, rows: seq<Row>, scope: Scope, now: int) {
    && Increasing(ids) && |out| == |ids|
    && (forall p: PlayerId :: p in ids <==> HasCandidate(rows, p, scope, now))
    && (forall i :: 0 <= i < |ids| ==> EntryFor(out[i], rows, ids[i], scope, now))
  }

  method SortIds(s: set<PlayerId>) returns (ids: seq<PlayerId>)
    ensures Increasing(ids) && forall p :: p in ids <==> p in s
  {
    hide Increasing;
    ids := [];
    EmptyIncreasing();
    var rest := s;
    while rest != {}
      invariant rest <= s && Increasing(ids) && forall p :: p in ids <==> p in s && p !in rest
      decreases rest
    {
      var p :| p in rest;
      ids := InsertId(ids, p);
      rest := rest - {p};
    }
  }

  lemma EmptyIncreasing()
    ensures Increasing([])
  {}

  method InsertId(ids: seq<PlayerId>, p: PlayerId) returns (r: seq<PlayerId>)
    requires Increasing(ids) && p !in ids
    ensures Increasing(r) && forall x :: x in r <==> x in ids || x == p
  {
    hide Increasing;
    var k := |ids|;
    while k > 0 && ids[k - 1] > p
      invariant 0 <= k <= |ids| && forall l :: k <= l < |ids| ==> ids[l] > p
    {
      k := k - 1;
    }
    assert ids == ids[..k] + ids[k..];
    assert k > 0 ==> ids[k - 1] in ids;
    StillIncreasing(ids[..k], p, ids[k..]);
    r := ids[..k] + [p] + ids[k..];
  }

  lemma StillIncreasing(front: seq<PlayerId>, p: PlayerId, back: seq<PlayerId>)
    requires Increasing(front + back)
    requires front != [] ==> front[|front| - 1] < p
    requires forall l :: 0 <= l < |back| ==> back[l] > p
    ensures Increasing(front + [p] + back)
  {
    var r, whole := front + [p] + back, front + back;
    forall i, j | 0 <= i < j < |r|
      ensures r[i] < r[j]
    {
      assert i != |front| ==> r[i] == whole[if i > |front| then i - 1 else i];
      assert j != |front| ==> r[j] == whole[if j > |front| then j - 1 else j];
      assert j == |front| ==> whole[i] == front[i] && whole[j - 1] == front[j - 1];
    }
  }

  /** The grouping loop. */
  method GroupByPlayer(rows: seq<Row>) returns (byPlayer: map<PlayerId, seq<Row>>)
    ensures forall p :: p in byPlayer <==> RowsOf(rows, p) != []
    ensures forall p :: p in byPlayer ==> byPlayer[p] == RowsOf(rows, p)
  {
    byPlayer := map[];
    for i := 0 to |rows|
      invariant forall p :: p in byPlayer <==> RowsOf(rows[..i], p) != []
      invariant forall p :: p in byPlayer ==> byPlayer[p] == RowsOf(rows[..i], p)
    {
      assert rows[..i + 1][..i] == rows[..i];
      var row := rows[i];
      if row.reverted {
        continue;
      }
      if row.player in byPlayer {
        byPlayer := byPlayer[row.player := byPlayer[row.player] + [row]];
      } else {
        byPlayer := byPlayer[row.player := [row]];
      }
    }
    assert rows[..|rows|] == rows;
  }

  /** The list for the players handled so far. */
  ghost predicate PublishesFor(out: seq<Entry>, published: seq<PlayerId>, done: seq<PlayerId>, rows: seq<Row>, scope: Scope, now: int) {
    && Increasing(published) && |out| == |published|
    && (forall p: PlayerId :: p in published <==> p in done && HasCandidate(rows, p, scope, now))
    && (forall k :: 0 <= k < |published| ==> EntryFor(out[k], rows, published[k], scope, now))
  }

  lemma OneMorePlayer(out: seq<Entry>, published: seq<PlayerId>, done: seq<PlayerId>, p: PlayerId, chosen: Option<Row>,
                      rows: seq<Row>, scope: Scope, now: int)
    requires PublishesFor(out, published, done, rows, scope, now)
    requires forall q :: q in done ==> q < p
    requires chosen.Some? <==> HasCandidate(rows, p, scope, now)
    requires chosen.Some? ==> IsChosen(chosen.value, rows, p, scope, now)
    ensures chosen.None? ==> PublishesFor(out, published, done + [p], rows, scope, now)
    ensures chosen.Some? ==> PublishesFor(out + [EntryOf(chosen.value)], published + [p], done + [p], rows, scope, now)
  {
    hide IsChosen, HasCandidate, EntryOf, Describes;
    assert forall k :: 0 <= k < |published| ==> published[k] in published;
    if chosen.Some? {
      EntryDescribes(EntryOf(chosen.value), chosen.value);
      assert EntryFor(EntryOf(chosen.value), rows, p, scope, now);
    }
  }

  /** `buildBanlistEntries`. */
  method BuildBanlistEntries(rows: seq<Row>, scope: Scope, now: int) returns (out: seq<Entry>, published: seq<PlayerId>)
    ensures Publishes(out, published, rows, scope, now)
  {
    hide AtLeast, RowExpiry, IsChosen, EntryFor, Candidate, RowsOf, HasCandidate;
    var byPlayer := GroupByPlayer(rows);
    var ids := SortIds(byPlayer.Keys);
    out, published := [], [];
    for i := 0 to |ids|
      invariant PublishesFor(out, published, ids[..i], rows, scope, now)
    {
      var p := ids[i];
      assert p in ids;
      var chosen := Choose(byPlayer[p], p, scope, now);
      ChosenInAll(rows, p, scope, now, chosen);
      OneMorePlayer(out, published, ids[..i], p, chosen, rows, scope, now);
      assert ids[..i + 1] == ids[..i] + [p];
      if chosen.Some? {
        out := out + [EntryOf(chosen.value)];
        published := published + [p];
      }
    }
    assert ids[..|ids|] == ids;
    forall p: PlayerId
      ensures HasCandidate(rows, p, scope, now) ==> p in ids
    {
      NoRows(rows, p, scope, now);
    }
  }

  lemma NoRows(rows: seq<Row>, p: PlayerId, scope: Scope, now: int)
    ensures RowsOf(rows, p) == [] ==> !HasCandidate(rows, p, scope, now)
  {
    forall i | 0 <= i < |rows|
      ensures rows[i].player == p && Candidate(rows[i], scope, now) ==> rows[i] in RowsOf(rows, p)
    {}
  }

  /** The choice among a player's unreverted rows is the choice among all rows. */
  lemma ChosenInAll(rows: seq<Row>, p: PlayerId, scope: Scope, now: int, chosen: Option<Row>)
    requires chosen.None? ==> forall r :: r in RowsOf(rows, p) ==> !Candidate(r, scope, now)
    requires chosen.Some? ==> IsChosen(chosen.value, RowsOf(rows, p), p, scope, now)
    ensures chosen.Some? <==> HasCandidate(rows, p, scope, now)
    ensures chosen.Some? ==> IsChosen(chosen.value, rows, p, scope, now)
  {
    hide RowExpiry, AtLeast;
    forall i | 0 <= i < |rows| && rows[i].player == p && Candidate(rows[i], scope, now)
      ensures rows[i] in RowsOf(rows, p)
    {}
    if chosen.Some? {
      var i :| 0 <= i < |rows| && rows[i] == chosen.value;
    }
  }

  // ----- the input order does not matter

  /** No two rows of one player that could be published were issued at the same time. */
  predicate DistinctTimes(rows: seq<Row>, scope: Scope, now: int) {
    forall r, s | r in rows && s in rows && Candidate(r, scope, now) && Candidate(s, scope, now) ::
      r.player == s.player && r.issuedAt == s.issuedAt ==> r == s
  }

  lemma SameChoice(a: Row, b: Row, rows: seq<Row>, p: PlayerId, scope: Scope, now: int)
    requires DistinctTimes(rows, scope, now) && IsChosen(a, rows, p, scope, now) && IsChosen(b, rows, p, scope, now)
    ensures a == b
  {
    hide Expiry;
    assert AtLeast(a, b) && AtLeast(b, a);
  }

  lemma HasMember(s: seq<PlayerId>)
    ensures s != [] ==> exists p: PlayerId :: p in s
  {
    if s != [] {
      assert s[0] in s;
    }
  }

  lemma {:induction false} IncreasingUnique(s: seq<PlayerId>, t: seq<PlayerId>)
    requires Increasing(s) && Increasing(t) && forall p: PlayerId :: p in s <==> p in t
    ensures s == t
  {
    if s == [] || t == [] {
      HasMember(s);
      HasMember(t);
    } else {
      var m, n := |s| - 1, |t| - 1;
      assert s[m] in t && t[n] in s;
      assert s[m] == t[n];
      assert forall p :: p in s[..m] <==> p in s && p != s[m];
      assert forall p :: p in t[..n] <==> p in t && p != t[n];
      IncreasingUnique(s[..m], t[..n]);
      assert s == s[..m] + [s[m]] && t == t[..n] + [t[n]];
    }
  }

  /** Two runs over the same rows in any two orders publish the same list. */
  lemma OrderDoesNotMatter(rows: seq<Row>, other: seq<Row>, scope: Scope, now: int,
                           out: seq<Entry>, ids: seq<PlayerId>, out': seq<Entry>, ids': seq<PlayerId>)
    requires DistinctTimes(rows, scope, now) && multiset(rows) == multiset(other)
    requires Publishes(out, ids, rows, scope, now) && Publishes(out', ids', other, scope, now)
    ensures out == out' && ids == ids'
  {
    hide RowExpiry, AtLeast, EntryOf, Candidate;
    assert forall r :: r in rows <==> r in multiset(rows);
    assert forall r :: r in other <==> r in multiset(other);
    assert forall r :: r in rows <==> r in other;
    forall p: PlayerId
      ensures p in ids <==> p in ids'
    {
      SameCandidates(rows, other, p, scope, now);
    }
    IncreasingUnique(ids, ids');
    forall i | 0 <= i < |ids|
      ensures out[i] == out'[i]
    {
      assert EntryFor(out[i], rows, ids[i], scope, now) && EntryFor(out'[i], other, ids[i], scope, now);
      var a :| IsChosen(a, rows, ids[i], scope, now) && Describes(out[i], a);
      var b :| IsChosen(b, other, ids[i], scope, now) && Describes(out'[i], b);
      assert IsChosen(b, rows, ids[i], scope, now);
      SameChoice(a, b, rows, ids[i], scope, now);
    }
  }

  lemma SameCandidates(rows: seq<Row>, other: seq<Row>, p: PlayerId, scope: Scope, now: int)
    requires forall r :: r in rows <==> r in other
    ensures HasCandidate(rows, p, scope, now) <==> HasCandidate(other, p, scope, now)
  {
    hide Candidate;
    if HasCandidate(rows, p, scope, now) {
      var i :| 0 <= i < |rows| && rows[i].player == p && Candidate(rows[i], scope, now);
      assert rows[i] in other;
    }
    if HasCandidate(other, p, scope, now) {
      var i :| 0 <= i < |other| && other[i].player == p && Candidate(other[i], scope, now);
      assert other[i] in rows;
    }
  }

  // ----- the separate fold

  datatype BanState = BanState(active: bool, permanent: bool)

  /** What the states say: exactly the players with an active ban, and which of them have a permanent one. */
  ghost predicate IsStateOf(states: map<PlayerId, BanState>, rows: seq<Row>, now: int) {
    && (forall p: PlayerId :: p in states <==> HasCandidate(rows, p, AllActive, now))
    && (forall p: PlayerId :: p in states ==>
          states[p].active && (states[p].permanent <==> HasCandidate(rows, p, PermanentOnly, now)))
  }

  /** The fold of `loadModerationBanStates` over the ban rows of all players. */
  method LoadModerationBanStates(rows: seq<Row>, now: int) returns (states: map<PlayerId, BanState>)
    ensures IsStateOf(states, rows, now)
  {
    hide Expiry;
    states := map[];
    for i := 0 to |rows|
      invariant IsStateOf(states, rows[..i], now)
    {
      var row := rows[i];
      assert rows[..i + 1] == rows[..i] + [row];
      OneMoreRow(rows[..i], row, now);
      if row.reverted {
        continue;
      }
      var expiresAt := RowExpiry(row);
      if expiresAt.Some? && expiresAt.value <= now {
        continue;
      }
      var state := if row.player in states then states[row.player] else BanState(true, false);
      if expiresAt.None? {
        state := state.(permanent := true);
      }
      states := states[row.player := state];
    }
    assert rows[..|rows|] == rows;
  }

  lemma OneMoreRow(rows: seq<Row>, row: Row, now: int)
    ensures forall p: PlayerId, scope :: HasCandidate(rows + [row], p, scope, now) <==>
                                           HasCandidate(rows, p, scope, now) || (row.player == p && Candidate(row, scope, now))
  {
    hide Candidate;
    forall p: PlayerId, scope
      ensures HasCandidate(rows + [row], p, scope, now) <==>
                HasCandidate(rows, p, scope, now) || (row.player == p && Candidate(row, scope, now))
    {
      assert (rows + [row])[|rows|] == row;
      if HasCandidate(rows, p, scope, now) {
        var i :| 0 <= i < |rows| && rows[i].player == p && Candidate(rows[i], scope, now);
        assert (rows + [row])[i] == rows[i];
      }
    }
  }

  /** At one instant, the list names exactly the players the fold calls active, or permanent. */
  lemma ListAgreesWithStates(rows: seq<Row>, now: int, states: map<PlayerId, BanState>,
                             all: seq<Entry>, allIds: seq<PlayerId>, permanent: seq<Entry>, permanentIds: seq<PlayerId>, p: PlayerId)
    requires IsStateOf(states, rows, now)
    requires Publishes(all, allIds, rows, AllActive, now) && Publishes(permanent, permanentIds, rows, PermanentOnly, now)
    ensures p in allIds <==> p in states && states[p].active
    ensures p in permanentIds <==> p in states && states[p].permanent
    ensures forall i :: 0 <= i < |permanent| ==> permanent[i].expiresAt.None?
    ensures forall i :: 0 <= i < |all| ==> (all[i].expiresAt.None? <==> states[allIds[i]].permanent)
  {
    hide Expiry;
    PermanentIsActive(rows, p, now);
    forall i | 0 <= i < |permanent|
      ensures permanent[i].expiresAt.None?
    {
      assert EntryFor(permanent[i], rows, permanentIds[i], PermanentOnly, now);
    }
    forall i | 0 <= i < |all|
      ensures allIds[i] in states && (all[i].expiresAt.None? <==> states[allIds[i]].permanent)
    {
      assert allIds[i] in allIds;
      EntryTellsPermanence(all[i], rows, allIds[i], now);
    }
  }

  lemma PermanentIsActive(rows: seq<Row>, p: PlayerId, now: int)
    ensures HasCandidate(rows, p, PermanentOnly, now) ==> HasCandidate(rows, p, AllActive, now)
  {
    hide Expiry;
    if HasCandidate(rows, p, PermanentOnly, now) {
      var i :| 0 <= i < |rows| && rows[i].player == p && Candidate(rows[i], PermanentOnly, now);
      assert Candidate(rows[i], AllActive, now);
    }
  }

  lemma EntryTellsPermanence(e: Entry, rows: seq<Row>, p: PlayerId, now: int)
    requires EntryFor(e, rows, p, AllActive, now)
    ensures e.expiresAt.None? <==> HasCandidate(rows, p, PermanentOnly, now)
  {
    hide Expiry;
    var row :| IsChosen(row, rows, p, AllActive, now) && Describes(e, row);
    if e.expiresAt.None? {
      var i :| 0 <= i < |rows| && rows[i] == row;
      assert Candidate(rows[i], PermanentOnly, now);
    }
    if HasCandidate(rows, p, PermanentOnly, now) {
      var i :| 0 <= i < |rows| && rows[i].player == p && Candidate(rows[i], PermanentOnly, now);
      assert rows[i] in rows && Candidate(rows[i], AllActive, now);
      assert AtLeast(row, rows[i]);
    }
  }
}
