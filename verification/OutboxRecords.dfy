/**
  What the steps of the outbox record, and what an undisturbed relay and an undisturbed delete achieve.
 */
module OutboxRecords {

  import opened Wrappers
  import opened Outbox

  // ----- who writes what

  predicate HeldFor(s: State, r: RelayId, id: RowId) { r in s.relays && Holds(s.relays[r]) && s.relays[r].row == id }

  /** A relay writes to the row it holds. */
  predicate WritesTo(s: State, a: Action, id: RowId) { (a.Stamp? || a.Cancel?) && HeldFor(s, a.relay, id) }

  /** The commit of a delete writes to the rows it holds; those of its first UPDATE get their outcome. */
  predicate CommitsTo(s: State, a: Action, id: RowId) { a.DeleteCommit? && s.LockedBy(id, Deleter(a.server)) }

  predicate CancelsRow(s: State, a: Action, id: RowId) {
    (a.Cancel? && HeldFor(s, a.relay, id)) || (CommitsTo(s, a, id) && Completes(s, a.server, id))
  }

  /** Column by column, which steps write to a row, and what. */
  lemma RowWrittenExactly(s: State, a: Action, id: RowId)
    requires Enabled(s, a) && id in s.rows
    ensures id in Step(s, a).rows
    ensures var row, next := s.rows[id], Step(s, a).rows[id];
            && next.server == row.server
            && (next.relayed <==> row.relayed || WritesTo(s, a, id) || CommitsTo(s, a, id))
            && (next.applied <==> row.applied || CancelsRow(s, a, id) || (a.MarkApplied? && a.id == id))
            && next.outcome == (if CancelsRow(s, a, id) then Some(ServerRemoved)
                                else if row.applied then row.outcome
                                else if a.MarkApplied? && a.id == id then Some(a.outcome)
                                else if a.MarkFailed? && a.id == id then Some(Failure(a.code))
                                else row.outcome)
  {
    hide Step, Enabled;
    if OfRelay(a) {
      RelayWrites(s, a, id);
    } else if OfDelete(a) {
      DeleteWrites(s, a, id);
    } else {
      OtherWrites(s, a, id);
    }
  }

  lemma RelayWrites(s: State, a: Action, id: RowId)
    requires Enabled(s, a) && OfRelay(a) && id in s.rows
    ensures id in Step(s, a).rows
    ensures Step(s, a).rows[id] ==
              if WritesTo(s, a, id) then if a.Cancel? then s.rows[id].(relayed := true, applied := true, outcome := Some(ServerRemoved))
                                         else s.rows[id].(relayed := true)
              else s.rows[id]
  {
    hide DeleteStep, OtherStep, DeleteEnabled, OtherEnabled;
  }

  lemma DeleteWrites(s: State, a: Action, id: RowId)
    requires Enabled(s, a) && OfDelete(a) && id in s.rows
    ensures id in Step(s, a).rows
    ensures Step(s, a).rows[id] ==
              if !CommitsTo(s, a, id) then s.rows[id]
              else if Completes(s, a.server, id) then s.rows[id].(relayed := true, applied := true, outcome := Some(ServerRemoved))
              else s.rows[id].(relayed := true)
  {
    hide RelayStep, OtherStep, RelayEnabled, OtherEnabled;
  }

  lemma OtherWrites(s: State, a: Action, id: RowId)
    requires Enabled(s, a) && !OfRelay(a) && !OfDelete(a) && id in s.rows
    ensures id in Step(s, a).rows
    ensures var row, next := s.rows[id], Step(s, a).rows[id];
            if (a.MarkApplied? || a.MarkFailed?) && a.id == id && !row.applied
            then if a.MarkApplied? then next == row.(applied := true, outcome := Some(a.outcome))
                 else next == row.(outcome := Some(Failure(a.code)))
            else next == row
  {
    hide RelayStep, DeleteStep, RelayEnabled, DeleteEnabled;
  }

  /** Rows come from enqueues only, and start pending. */
  lemma RowsAddedExactly(s: State, a: Action)
    requires Enabled(s, a)
    ensures Step(s, a).rows.Keys == s.rows.Keys + if a.Enqueue? then {a.id} else {}
    ensures a.Enqueue? ==> Step(s, a).rows[a.id] == Row(a.server, false, false, None)
  {
    if OfRelay(a) && (a.Cancel? || a.Stamp?) {
      assert s.relays[a.relay].row in s.rows;
    }
  }

  /** The row whose XADD lands in this step. */
  function Lands(s: State, a: Action): Option<RowId> {
    if a.XaddLands? && a.relay in s.relays && s.relays[a.relay].Sending? then Some(s.relays[a.relay].row)
    else if a.LateXadd? then Some(a.id)
    else None
  }

  /** A stream grows by the rows of its server that land, in that order, and loses entries to its consumer and to UNLINK. */
  lemma StreamWrittenExactly(s: State, a: Action, v: ServerId)
    requires Enabled(s, a)
    ensures Step(s, a).Stream(v) ==
              if Lands(s, a).Some? && IsOf(s, Lands(s, a).value, v) then s.Stream(v) + [Lands(s, a).value]
              else if a.Unlink? && a.server == v then []
              else if a.Consume? && a.server == v then s.Stream(v)[..a.k] + s.Stream(v)[a.k + 1..]
              else s.Stream(v)
    ensures Step(s, a).published == s.published + if Lands(s, a).Some? then {Lands(s, a).value} else {}
  {
    hide Step, Enabled;
    if OfRelay(a) {
      RelayFeedsStream(s, a, v);
    } else if OfDelete(a) {
      DeleteFeedsStream(s, a, v);
    } else {
      OtherFeedsStream(s, a, v);
    }
  }

  lemma RelayFeedsStream(s: State, a: Action, v: ServerId)
    requires Enabled(s, a) && OfRelay(a)
    ensures Step(s, a).Stream(v) == s.Stream(v) + if Lands(s, a).Some? && IsOf(s, Lands(s, a).value, v) then [Lands(s, a).value] else []
    ensures Step(s, a).published == s.published + if Lands(s, a).Some? then {Lands(s, a).value} else {}
  {
    hide DeleteStep, OtherStep, DeleteEnabled, OtherEnabled;
  }

  lemma DeleteFeedsStream(s: State, a: Action, v: ServerId)
    requires Enabled(s, a) && OfDelete(a)
    ensures Step(s, a).Stream(v) == if a.Unlink? && a.server == v then [] else s.Stream(v)
    ensures Step(s, a).published == s.published
  {
    hide RelayStep, OtherStep, RelayEnabled, OtherEnabled;
  }

  lemma OtherFeedsStream(s: State, a: Action, v: ServerId)
    requires Enabled(s, a) && !OfRelay(a) && !OfDelete(a)
    ensures Step(s, a).Stream(v) ==
              if a.LateXadd? && IsOf(s, a.id, v) then s.Stream(v) + [a.id]
              else if a.Consume? && a.server == v then s.Stream(v)[..a.k] + s.Stream(v)[a.k + 1..]
              else s.Stream(v)
    ensures Step(s, a).published == s.published + if a.LateXadd? then {a.id} else {}
  {
    hide RelayStep, DeleteStep, RelayEnabled, DeleteEnabled;
  }

  // ----- in every run

  /** A stream holds rows of its own server only. */
  ghost predicate OwnEntries(s: State) {
    forall v, k :: 0 <= k < |s.Stream(v)| ==> IsOf(s, s.Stream(v)[k], v) && s.Stream(v)[k] in s.published
  }

  lemma OwnEntriesKept(s: State, a: Action)
    requires OwnEntries(s) && Enabled(s, a)
    ensures OwnEntries(Step(s, a))
  {
    var t := Step(s, a);
    assert a.Consume? ==> a.k < |s.Stream(a.server)|;
    hide Step, Enabled, State.Stream;
    forall v, k | 0 <= k < |t.Stream(v)|
      ensures IsOf(t, t.Stream(v)[k], v) && t.Stream(v)[k] in t.published
    {
      StreamWrittenExactly(s, a, v);
      var id, entries := t.Stream(v)[k], s.Stream(v);
      if a.Consume? && a.server == v && Lands(s, a).None? {
        assert id == entries[if k < a.k then k else k + 1];
      } else {
        assert k < |entries| ==> id == entries[k];
      }
      assert IsOf(s, id, v);
      RowWrittenExactly(s, a, id);
    }
  }

  /** An applied outcome is a final one; a row without one is untried or failed. */
  predicate OutcomeFits(row: Row) {
    if row.applied then row.outcome.Some? && !row.outcome.value.Failure? else row.outcome.Some? ==> row.outcome.value.Failure?
  }

  ghost predicate OutcomesFit(s: State) { forall id :: id in s.rows ==> OutcomeFits(s.rows[id]) }

  lemma OutcomesFitKept(s: State, a: Action)
    requires OutcomesFit(s) && Enabled(s, a)
    ensures OutcomesFit(Step(s, a))
  {
    var t := Step(s, a);
    RowsAddedExactly(s, a);
    assert a.MarkApplied? ==> !a.outcome.Failure?;
    hide Step, Enabled;
    forall id | id in t.rows
      ensures OutcomeFits(t.rows[id])
    {
      if id in s.rows {
        RowWrittenExactly(s, a, id);
      }
    }
  }

  lemma {:induction false} RecordsAlong(s: State, actions: seq<Action>, t: State, id: RowId)
    requires OwnEntries(s) && OutcomesFit(s) && Reaches(s, actions, t) && id in t.rows
    ensures OwnEntries(t) && OutcomesFit(t)
    ensures (id in s.rows && t.rows[id].outcome == s.rows[id].outcome) || Reported(actions, id, t.rows[id].outcome)
    decreases |actions|
  {
    if actions != [] {
      var a, rest := actions[0], actions[1..];
      assert a.MarkApplied? ==> !a.outcome.Failure?;
      hide Enabled, Step, OwnEntries, OutcomesFit;
      OwnEntriesKept(s, a);
      OutcomesFitKept(s, a);
      RecordsAlong(Step(s, a), rest, t, id);
      RowsAddedExactly(s, a);
      assert a in actions && forall b :: b in rest ==> b in actions;
      if id in s.rows {
        RowWrittenExactly(s, a, id);
        var o := Step(s, a).rows[id].outcome;
        assert o == s.rows[id].outcome || Reported(actions, id, o);
      }
      assert Reported(rest, id, t.rows[id].outcome) ==> Reported(actions, id, t.rows[id].outcome);
    }
  }

  /** Somebody reported the outcome, or it is the one of a cancelled row, or none. */
  predicate Reported(actions: seq<Action>, id: RowId, outcome: Option<Outcome>) {
    match outcome
    case None => true
    case Some(ServerRemoved) => true
    case Some(Failure(c)) => MarkFailed(id, c) in actions
    case Some(o) => MarkApplied(id, o) in actions
  }

  /**
    In every run: a stream holds published rows of its own server only; an applied row has a final
    outcome, and any other row none or a failure; and an outcome other than the removal of the server
    was reported by the worker for that row.
   */
  lemma OutcomesHaveCauses(actions: seq<Action>, s: State, id: RowId)
    requires Reaches(INITIAL, actions, s) && id in s.rows
    ensures OwnEntries(s)
    ensures OutcomeFits(s.rows[id]) && Reported(actions, id, s.rows[id].outcome)
  {
    hide Reaches;
    RecordsAlong(INITIAL, actions, s, id);
  }

  /** A failure can be reported for every published row that nobody holds, and is not final: a later success is recorded. */
  lemma FailureIsRetried(s: State, id: RowId, code: nat, o: Outcome)
    requires id in s.rows && id in s.published && id !in s.locks && !s.rows[id].applied && !o.Failure?
    ensures Enabled(s, MarkFailed(id, code))
    ensures var t := Step(s, MarkFailed(id, code));
            && t.rows[id] == s.rows[id].(outcome := Some(Failure(code))) && Enabled(t, MarkApplied(id, o))
            && Step(t, MarkApplied(id, o)).rows[id] == s.rows[id].(applied := true, outcome := Some(o))
  {}

  // ----- an undisturbed relay

  /** A relay that finds nothing to claim ends without a trace. */
  lemma DrainedLeavesNothing(s: State, r: RelayId)
    requires r !in s.relays
    ensures Enabled(s, BeginRelay(r))
    ensures var t := Step(s, BeginRelay(r)); Enabled(t, Drained(r)) && Step(t, Drained(r)) == s
  {
    hide DeleteStep, OtherStep, DeleteEnabled, OtherEnabled;
    var t := Step(s, BeginRelay(r));
    assert t.relays - {r} == s.relays;
  }

  lemma Begins(s: State, r: RelayId, id: RowId)
    requires r !in s.relays && id in s.rows && !s.rows[id].relayed && id !in s.locks
    ensures var removed := s.Deleted(s.rows[id].server);
            Reaches(s, [BeginRelay(r)] + [Claim(r, id)],
                    s.(relays := s.relays[r := Claimed(id, removed)], locks := s.locks[id := Relay(r)]))
  {
    hide DeleteStep, OtherStep, DeleteEnabled, OtherEnabled;
    var a, b := BeginRelay(r), Claim(r, id);
    var s1 := Step(s, a);
    var s2 := s.(relays := s.relays[r := Claimed(id, s.Deleted(s.rows[id].server))], locks := s.locks[id := Relay(r)]);
    assert s.rows[id].server in s1.relays[r].removed <==> s.Deleted(s.rows[id].server);
    assert Step(s1, b).relays == s2.relays;
    OneStep(s, a, s1);
    OneStep(s1, b, s2);
    ReachesOn(s, [a], s1, [b], s2);
  }

  lemma Unlocks(s: State, r: RelayId, id: RowId)
    requires Basics(s) && r !in s.relays && id in s.rows && id !in s.locks
    ensures s.(locks := s.locks[id := Relay(r)]).Unlock(Relay(r)) == s.locks
  {
    var locked := s.(locks := s.locks[id := Relay(r)]);
    assert forall x :: x in s.locks ==> s.locks[x] != Relay(r);
    assert locked.Unlock(Relay(r)) == s.locks;
  }

  /**
    A relay that nobody disturbs takes a pending row of an active server: one entry is added at the end
    of the server's stream, the row is relayed, and nothing else is changed.
   */
  lemma RelayPublishes(s: State, r: RelayId, id: RowId)
    requires Basics(s) && r !in s.relays && id in s.rows && !s.rows[id].relayed && id !in s.locks && !s.Deleted(s.rows[id].server)
    ensures var v := s.rows[id].server;
            Reaches(s, [BeginRelay(r)] + [Claim(r, id)] + [Send(r), XaddLands(r), Stamp(r)],
                    s.(rows := s.rows[id := s.rows[id].(relayed := true)],
                       streams := s.streams[v := s.Stream(v) + [id]],
                       published := s.published + {id}))
  {
    var v := s.rows[id].server;
    var claimed := s.(relays := s.relays[r := Claimed(id, false)], locks := s.locks[id := Relay(r)]);
    var t := s.(rows := s.rows[id := s.rows[id].(relayed := true)], streams := s.streams[v := s.Stream(v) + [id]], published := s.published + {id});
    Begins(s, r, id);
    Unlocks(s, r, id);
    SendsAndStamps(s, claimed, r, id, t);
    hide Basics, Reaches, Step, Enabled;
    ReachesOn(s, [BeginRelay(r)] + [Claim(r, id)], claimed, [Send(r), XaddLands(r), Stamp(r)], t);
  }

  lemma SendsAndStamps(s: State, claimed: State, r: RelayId, id: RowId, t: State)
    requires id in s.rows && r !in s.relays
    requires claimed == s.(relays := s.relays[r := Claimed(id, false)], locks := s.locks[id := Relay(r)])
    requires s.(locks := s.locks[id := Relay(r)]).Unlock(Relay(r)) == s.locks
    requires var v := s.rows[id].server;
             t == s.(rows := s.rows[id := s.rows[id].(relayed := true)], streams := s.streams[v := s.Stream(v) + [id]], published := s.published + {id})
    ensures Reaches(claimed, [Send(r), XaddLands(r), Stamp(r)], t)
  {
    hide DeleteStep, OtherStep, DeleteEnabled, OtherEnabled, Reaches;
    var v := s.rows[id].server;
    var sending := claimed.(relays := s.relays[r := Sending(id)]);
    var sent := claimed.(relays := s.relays[r := Sent(id)], streams := s.streams[v := s.Stream(v) + [id]], published := s.published + {id});
    assert claimed.relays[r := Sending(id)] == sending.relays && sending.relays[r := Sent(id)] == sent.relays;
    assert Step(sent, Stamp(r)).locks == s.locks && sent.relays - {r} == s.relays;
    ThreeSteps(claimed, Send(r), sending, XaddLands(r), sent, Stamp(r), t);
  }

  /** For a deleted server it cancels the row instead, and the stream is left alone. */
  lemma RelayCancels(s: State, r: RelayId, id: RowId)
    requires Basics(s) && r !in s.relays && id in s.rows && !s.rows[id].relayed && id !in s.locks && s.Deleted(s.rows[id].server)
    ensures Reaches(s, [BeginRelay(r)] + [Claim(r, id)] + [Cancel(r)],
                    s.(rows := s.rows[id := Row(s.rows[id].server, true, true, Some(ServerRemoved))]))
  {
    var claimed := s.(relays := s.relays[r := Claimed(id, true)], locks := s.locks[id := Relay(r)]);
    var t := s.(rows := s.rows[id := Row(s.rows[id].server, true, true, Some(ServerRemoved))]);
    Begins(s, r, id);
    Unlocks(s, r, id);
    assert Step(claimed, Cancel(r)).locks == s.locks && claimed.relays - {r} == s.relays;
    assert Step(claimed, Cancel(r)) == t;
    OneStep(claimed, Cancel(r), t);
    hide Basics, Reaches, Step, Enabled;
    ReachesOn(s, [BeginRelay(r)] + [Claim(r, id)], claimed, [Cancel(r)], t);
  }

  // ----- an undisturbed delete

  /** The state with the delete of `v` holding more rows. */
  ghost function WithLocks(s: State, v: ServerId, ids: set<RowId>): State {
    s.(locks := s.locks + map id | id in ids :: Deleter(v))
  }

  /** The rows can be locked by the UPDATE that is on its way. */
  ghost predicate Lockable(s: State, v: ServerId, ids: set<RowId>) {
    && s.Updating(v)
    && forall id :: id in ids ==>
         && IsOf(s, id, v) && id in s.deletes[v].seen && id !in s.locks
         && (if s.Completing(v) then !s.rows[id].applied else !s.rows[id].relayed)
  }

  lemma LocksOne(s: State, v: ServerId, ids: set<RowId>, id: RowId)
    requires Lockable(s, v, ids) && id in ids
    ensures Enabled(s, DeleteLock(v, id))
    ensures var next := Step(s, DeleteLock(v, id));
            Lockable(next, v, ids - {id}) && WithLocks(next, v, ids - {id}) == WithLocks(s, v, ids)
  {
    hide State.Deleted, WithLocks;
    LockStep(s, v, id);
    hide Step, Enabled;
    MoreLocks(s, v, ids, id);
  }

  lemma LockStep(s: State, v: ServerId, id: RowId)
    requires s.Updating(v) && IsOf(s, id, v) && id in s.deletes[v].seen && id !in s.locks
    requires if s.Completing(v) then !s.rows[id].applied else !s.rows[id].relayed
    ensures Enabled(s, DeleteLock(v, id)) && Step(s, DeleteLock(v, id)) == s.(locks := s.locks[id := Deleter(v)])
  {
    hide RelayStep, OtherStep, RelayEnabled, OtherEnabled;
  }

  lemma MoreLocks(s: State, v: ServerId, ids: set<RowId>, id: RowId)
    requires id in ids
    ensures WithLocks(s.(locks := s.locks[id := Deleter(v)]), v, ids - {id}) == WithLocks(s, v, ids)
  {
    assert WithLocks(s.(locks := s.locks[id := Deleter(v)]), v, ids - {id}).locks == WithLocks(s, v, ids).locks;
  }

  lemma {:induction false} LocksAll(s: State, v: ServerId, ids: set<RowId>) returns (actions: seq<Action>)
    requires Lockable(s, v, ids)
    ensures Reaches(s, actions, WithLocks(s, v, ids))
    decreases |ids|
  {
    hide Step, Enabled, Lockable;
    if ids == {} {
      assert WithLocks(s, v, ids).locks == s.locks;
      actions := [];
    } else {
      hide WithLocks;
      var id :| id in ids;
      LocksOne(s, v, ids, id);
      var next := Step(s, DeleteLock(v, id));
      var rest := LocksAll(next, v, ids - {id});
      OneStep(s, DeleteLock(v, id), next);
      ReachesOn(s, [DeleteLock(v, id)], next, rest, WithLocks(s, v, ids));
      actions := [DeleteLock(v, id)] + rest;
    }
  }

  /** The rows a delete has to complete, and the ones it has to stamp besides. */
  function Open(s: State, v: ServerId): set<RowId> { set id | id in s.rows && IsOf(s, id, v) && !s.rows[id].applied }

  function Unstamped(s: State, v: ServerId): set<RowId> {
    set id | id in s.rows && IsOf(s, id, v) && s.rows[id].applied && !s.rows[id].relayed
  }

  /** What a delete makes of a row of its server. */
  function Finished(row: Row): Row {
    Row(row.server, true, true, if row.applied then row.outcome else Some(ServerRemoved))
  }

  ghost function AfterDelete(s: State, v: ServerId): State {
    s.(rows := map id | id in s.rows :: if IsOf(s, id, v) then Finished(s.rows[id]) else s.rows[id],
       deletes := s.deletes[v := Unlinked],
       streams := s.streams[v := []])
  }

  /** No row of the server is locked, and its delete has not begun. */
  ghost predicate Undisturbed(s: State, v: ServerId) {
    Basics(s) && v !in s.deletes && forall id :: IsOf(s, id, v) ==> id !in s.locks
  }

  /** The delete holds the rows of its first UPDATE; then those of both. */
  ghost function AfterFirst(s: State, v: ServerId): State {
    WithLocks(s, v, Open(s, v)).(deletes := s.deletes[v := Completing(s.RowsOf(v))])
  }

  ghost function BeforeSecond(s: State, v: ServerId): State {
    WithLocks(s, v, Open(s, v)).(deletes := s.deletes[v := Stamping(s.RowsOf(v), Open(s, v))])
  }

  ghost function AfterSecond(s: State, v: ServerId): State { WithLocks(BeforeSecond(s, v), v, Unstamped(s, v)) }

  lemma FirstUpdate(s: State, v: ServerId) returns (actions: seq<Action>)
    requires Undisturbed(s, v)
    ensures Reaches(s, actions, AfterFirst(s, v))
  {
    hide RelayStep, OtherStep, RelayEnabled, OtherEnabled, Reaches, Basics;
    var s1 := Step(s, DeleteMark(v));
    assert s1.RowsOf(v) == s.RowsOf(v);
    var s2 := Step(s1, DeleteComplete(v));
    assert s2.deletes == s.deletes[v := Completing(s.RowsOf(v))];
    OneStep(s, DeleteMark(v), s1);
    OneStep(s1, DeleteComplete(v), s2);
    assert Lockable(s2, v, Open(s, v));
    var locking := LocksAll(s2, v, Open(s, v));
    assert WithLocks(s2, v, Open(s, v)) == AfterFirst(s, v);
    ReachesOn(s, [DeleteMark(v)], s1, [DeleteComplete(v)], s2);
    ReachesOn(s, [DeleteMark(v)] + [DeleteComplete(v)], s2, locking, AfterFirst(s, v));
    actions := [DeleteMark(v)] + [DeleteComplete(v)] + locking;
  }

  lemma NoneHeld(s: State, v: ServerId)
    requires Undisturbed(s, v)
    ensures forall id :: id in s.locks ==> s.locks[id] != Deleter(v)
  {}

  lemma StampsFirst(s: State, v: ServerId)
    requires Undisturbed(s, v)
    ensures Enabled(AfterFirst(s, v), DeleteStamp(v)) && Step(AfterFirst(s, v), DeleteStamp(v)) == BeforeSecond(s, v)
  {
    hide RelayStep, OtherStep, RelayEnabled, OtherEnabled, Basics;
    NoneHeld(s, v);
    var t := AfterFirst(s, v);
    assert t.HeldBy(Deleter(v)) == Open(s, v);
    assert t.RowsOf(v) == s.RowsOf(v);
    assert Step(t, DeleteStamp(v)).deletes == BeforeSecond(s, v).deletes;
  }

  lemma SecondUpdate(s: State, v: ServerId) returns (actions: seq<Action>)
    requires Undisturbed(s, v)
    ensures Reaches(AfterFirst(s, v), actions, AfterSecond(s, v))
  {
    hide Step, Enabled, Reaches, Basics;
    StampsFirst(s, v);
    OneStep(AfterFirst(s, v), DeleteStamp(v), BeforeSecond(s, v));
    assert Lockable(BeforeSecond(s, v), v, Unstamped(s, v));
    var locking := LocksAll(BeforeSecond(s, v), v, Unstamped(s, v));
    ReachesOn(AfterFirst(s, v), [DeleteStamp(v)], BeforeSecond(s, v), locking, AfterSecond(s, v));
    actions := [DeleteStamp(v)] + locking;
  }

  lemma SecondHolds(s: State, v: ServerId, id: RowId)
    requires Undisturbed(s, v)
    ensures var u := AfterSecond(s, v);
            && (u.LockedBy(id, Deleter(v)) <==> IsOf(s, id, v) && (!s.rows[id].applied || !s.rows[id].relayed))
            && (id in u.locks && u.locks[id] != Deleter(v) <==> id in s.locks)
            && (id in s.locks ==> u.locks[id] == s.locks[id])
  {
    hide Basics;
    NoneHeld(s, v);
  }

  /** Which rows the second UPDATE leaves the delete holding, and that no other lock is touched. */
  ghost predicate HoldsForCommit(s: State, v: ServerId, u: State) {
    && (forall id :: u.LockedBy(id, Deleter(v)) <==> IsOf(s, id, v) && (!s.rows[id].applied || !s.rows[id].relayed))
    && (forall id :: id in u.locks && u.locks[id] != Deleter(v) <==> id in s.locks)
    && (forall id :: id in s.locks ==> id in u.locks && u.locks[id] == s.locks[id])
  }

  lemma SecondHoldsAll(s: State, v: ServerId)
    requires Undisturbed(s, v)
    ensures HoldsForCommit(s, v, AfterSecond(s, v))
    ensures var u := AfterSecond(s, v);
            u == s.(locks := u.locks, deletes := s.deletes[v := Stamping(s.RowsOf(v), Open(s, v))])
  {
    hide Undisturbed, State.LockedBy;
    forall id
      ensures var u := AfterSecond(s, v);
              && (u.LockedBy(id, Deleter(v)) <==> IsOf(s, id, v) && (!s.rows[id].applied || !s.rows[id].relayed))
              && (id in u.locks && u.locks[id] != Deleter(v) <==> id in s.locks)
              && (id in s.locks ==> u.locks[id] == s.locks[id])
    {
      SecondHolds(s, v, id);
    }
  }

  lemma CommitsRows(s: State, v: ServerId, u: State)
    requires HoldsForCommit(s, v, u) && u == s.(locks := u.locks, deletes := s.deletes[v := Stamping(s.RowsOf(v), Open(s, v))])
    ensures Enabled(u, DeleteCommit(v)) && Step(u, DeleteCommit(v)).rows == AfterDelete(s, v).rows
  {
    hide RelayStep, OtherStep, RelayEnabled, OtherEnabled, State.LockedBy;
  }

  lemma CommitsAll(s: State, v: ServerId)
    requires Undisturbed(s, v)
    ensures var u := AfterSecond(s, v);
            Enabled(u, DeleteCommit(v)) && Step(u, DeleteCommit(v)) == AfterDelete(s, v).(deletes := s.deletes[v := Committed], streams := s.streams)
  {
    SecondHoldsAll(s, v);
    hide RelayStep, OtherStep, RelayEnabled, OtherEnabled, Undisturbed, WithLocks, AfterSecond, State.LockedBy;
    var u := AfterSecond(s, v);
    CommitsRows(s, v, u);
    CommitsLocks(s, v, u);
    hide Enabled, Step, HoldsForCommit;
  }

  lemma CommitsLocks(s: State, v: ServerId, u: State)
    requires HoldsForCommit(s, v, u) && u == s.(locks := u.locks, deletes := s.deletes[v := Stamping(s.RowsOf(v), Open(s, v))])
    requires Enabled(u, DeleteCommit(v))
    ensures var w := Step(u, DeleteCommit(v)); w == s.(rows := w.rows, deletes := s.deletes[v := Committed])
  {
    hide RelayStep, OtherStep, RelayEnabled, OtherEnabled, State.LockedBy, Open, State.RowsOf;
    var w := Step(u, DeleteCommit(v));
    assert w.locks == s.locks;
    assert w.deletes == s.deletes[v := Committed];
  }

  lemma UnlinksAll(s: State, v: ServerId)
    ensures var w := AfterDelete(s, v).(deletes := s.deletes[v := Committed], streams := s.streams);
            Enabled(w, Unlink(v)) && Step(w, Unlink(v)) == AfterDelete(s, v)
  {
    hide RelayStep, OtherStep, RelayEnabled, OtherEnabled;
    assert s.deletes[v := Committed][v := Unlinked] == s.deletes[v := Unlinked];
  }

  /**
    A delete that nobody disturbs settles every row of its server: rows with an outcome keep it, all
    others are cancelled, none is left pending; the stream is gone, and nothing else is changed.
   */
  lemma DeleteSettles(s: State, v: ServerId) returns (actions: seq<Action>)
    requires Undisturbed(s, v)
    ensures Reaches(s, actions, AfterDelete(s, v))
  {
    hide Reaches, AfterDelete, Step, Enabled, Undisturbed, AfterFirst, AfterSecond;
    var first := FirstUpdate(s, v);
    var second := SecondUpdate(s, v);
    CommitsAll(s, v);
    UnlinksAll(s, v);
    var u := AfterSecond(s, v);
    var w := AfterDelete(s, v).(deletes := s.deletes[v := Committed], streams := s.streams);
    OneStep(u, DeleteCommit(v), w);
    OneStep(w, Unlink(v), AfterDelete(s, v));
    ReachesOn(s, first, AfterFirst(s, v), second, u);
    ReachesOn(s, first + second, u, [DeleteCommit(v)], w);
    ReachesOn(s, first + second + [DeleteCommit(v)], w, [Unlink(v)], AfterDelete(s, v));
    actions := first + second + [DeleteCommit(v)] + [Unlink(v)];
  }

  /** A delete that has not committed can be given up at any time: its locks are gone, nothing was written, and it can be tried again. */
  lemma AbortUndoes(s: State, v: ServerId)
    requires v in s.deletes && !s.Deleted(v)
    ensures Enabled(s, DeleteAbort(v))
    ensures var t := Step(s, DeleteAbort(v));
            && t == s.(deletes := t.deletes, locks := t.locks) && t.deletes == s.deletes - {v} && Enabled(t, DeleteMark(v))
            && forall id :: (id in t.locks <==> id in s.locks && s.locks[id] != Deleter(v)) && (id in t.locks ==> t.locks[id] == s.locks[id])
  {
    hide RelayStep, OtherStep, RelayEnabled, OtherEnabled;
  }
}
