/** Runs of the outbox, from the start, in which its promises are broken. */
module OutboxRuns {

  import opened Wrappers
  import opened Outbox

  const PENDING := Row(7, false, false, None)

  const DELETING := INITIAL.(deletes := map[7 := Stamping({}, {})])

  /** A row enqueued behind the outbox updates of its server's delete. */
  const IN_WINDOW := DELETING.(rows := map[1 := PENDING])

  /** The relay about to publish that row. */
  const PUBLISHING := IN_WINDOW.(locks := map[1 := Relay(0)], relays := map[0 := Sending(1)])

  const DELETE_UPDATES := [DeleteMark(7), DeleteComplete(7), DeleteStamp(7)]

  lemma ReachDeleting()
    ensures Reaches(INITIAL, DELETE_UPDATES, DELETING)
  {
    hide RelayStep, OtherStep, RelayEnabled, OtherEnabled, Reaches;
    var s1 := INITIAL.(deletes := map[7 := Marked]);
    var s2 := INITIAL.(deletes := map[7 := Completing({})]);
    assert s1.RowsOf(7) == {} && s2.RowsOf(7) == {};
    assert s2.HeldBy(Deleter(7)) == {};
    ThreeSteps(INITIAL, DeleteMark(7), s1, DeleteComplete(7), s2, DeleteStamp(7), DELETING);
  }

  lemma ReachPublishing()
    ensures Reaches(IN_WINDOW, [BeginRelay(0), Claim(0, 1), Send(0)], PUBLISHING)
  {
    hide DeleteStep, OtherStep, DeleteEnabled, OtherEnabled, Reaches;
    var s1 := IN_WINDOW.(relays := map[0 := Reading({1}, {})]);
    var s2 := PUBLISHING.(relays := map[0 := Claimed(1, false)]);
    assert IN_WINDOW.DeletedServers() == {} && IN_WINDOW.rows.Keys == {1};
    ThreeSteps(IN_WINDOW, BeginRelay(0), s1, Claim(0, 1), s2, Send(0), PUBLISHING);
  }

  lemma ReachEnqueued()
    ensures Reaches(DELETING, [Enqueue(1, 7)], IN_WINDOW)
  {
    hide RelayStep, DeleteStep, RelayEnabled, DeleteEnabled, Reaches;
    OneStep(DELETING, Enqueue(1, 7), IN_WINDOW);
  }

  const TO_PUBLISHING := DELETE_UPDATES + [Enqueue(1, 7)] + [BeginRelay(0), Claim(0, 1), Send(0)]

  lemma ReachWindow()
    ensures Reaches(INITIAL, TO_PUBLISHING, PUBLISHING)
  {
    hide Step, Enabled, Reaches;
    ReachDeleting();
    ReachEnqueued();
    ReachPublishing();
    ReachesOn(INITIAL, DELETE_UPDATES, DELETING, [Enqueue(1, 7)], IN_WINDOW);
    ReachesOn(INITIAL, DELETE_UPDATES + [Enqueue(1, 7)], IN_WINDOW, [BeginRelay(0), Claim(0, 1), Send(0)], PUBLISHING);
  }

  lemma CommitInWindow(s: State)
    requires s.rows.Keys == {1} && s.deletes == map[7 := Stamping({}, {})]
    requires forall id :: id in s.locks ==> s.locks[id] != Deleter(7)
    ensures Enabled(s, DeleteCommit(7)) && Step(s, DeleteCommit(7)) == s.(deletes := map[7 := Committed])
  {
    hide RelayStep, OtherStep, RelayEnabled, OtherEnabled;
    var t := Step(s, DeleteCommit(7));
    assert t.rows == s.rows;
    assert t.locks == s.locks;
    assert t.deletes == map[7 := Committed];
  }

  const REVIVED := PUBLISHING.(deletes := map[7 := Unlinked], relays := map[0 := Sent(1)], streams := map[7 := [1]], published := {1})

  lemma ReachRevived()
    ensures Reaches(PUBLISHING, [DeleteCommit(7), Unlink(7), XaddLands(0)], REVIVED)
  {
    CommitInWindow(PUBLISHING);
    var s1 := PUBLISHING.(deletes := map[7 := Committed]);
    var s2 := PUBLISHING.(deletes := map[7 := Unlinked], streams := map[7 := []]);
    UnlinkEmpty(s1, s2);
    LandsFirst(s2, REVIVED);
    hide Step, Enabled, Reaches;
    ThreeSteps(PUBLISHING, DeleteCommit(7), s1, Unlink(7), s2, XaddLands(0), REVIVED);
  }

  lemma LandsFirst(s: State, t: State)
    requires s.rows == map[1 := PENDING] && s.relays == map[0 := Sending(1)] && s.Stream(7) == [] && s.published == {}
    requires t == s.(relays := map[0 := Sent(1)], streams := s.streams[7 := [1]], published := {1})
    ensures Enabled(s, XaddLands(0)) && Step(s, XaddLands(0)) == t
  {
    hide DeleteStep, OtherStep, DeleteEnabled, OtherEnabled;
    assert [] + [1] == [1] && {} + {1} == {1};
  }

  lemma UnlinkEmpty(s: State, t: State)
    requires s.deletes == map[7 := Committed] && s.streams == map[]
    requires t == s.(deletes := map[7 := Unlinked], streams := map[7 := []])
    ensures Enabled(s, Unlink(7)) && Step(s, Unlink(7)) == t
  {
    hide RelayStep, OtherStep, RelayEnabled, OtherEnabled;
  }

  /** An enqueue between the second UPDATE and the commit: the relay publishes to the stream after its UNLINK. */
  lemma WindowEnqueueRevivesStream() returns (t: State)
    ensures Reaches(INITIAL, TO_PUBLISHING + [DeleteCommit(7), Unlink(7), XaddLands(0)], t)
    ensures t.deletes == map[7 := Unlinked] && t.Stream(7) == [1]
  {
    hide Step, Enabled, Reaches;
    t := REVIVED;
    ReachWindow();
    ReachRevived();
    ReachesOn(INITIAL, TO_PUBLISHING, PUBLISHING, [DeleteCommit(7), Unlink(7), XaddLands(0)], t);
  }

  const TO_APPLIED := TO_PUBLISHING + [XaddLands(0), EndUnstamped(0), MarkApplied(1, Confirmed)]

  const APPLIED_ROW := PENDING.(applied := true, outcome := Some(Confirmed))

  const APPLIED := IN_WINDOW.(rows := map[1 := APPLIED_ROW], streams := map[7 := [1]], published := {1})

  lemma ReachAppliedFromWindow()
    ensures Reaches(PUBLISHING, [XaddLands(0), EndUnstamped(0), MarkApplied(1, Confirmed)], APPLIED)
  {
    var s1 := PUBLISHING.(relays := map[0 := Sent(1)], streams := map[7 := [1]], published := {1});
    var s2 := s1.(relays := map[], locks := map[]);
    LandsFirst(PUBLISHING, s1);
    EndsSent(s1, s2);
    hide RelayStep, RelayEnabled, DeleteStep, DeleteEnabled, Reaches;
    ThreeSteps(PUBLISHING, XaddLands(0), s1, EndUnstamped(0), s2, MarkApplied(1, Confirmed), APPLIED);
  }

  lemma EndsSent(s: State, t: State)
    requires s.relays == map[0 := Sent(1)] && s.locks == map[1 := Relay(0)] && t == s.(relays := map[], locks := map[])
    ensures Enabled(s, EndUnstamped(0)) && Step(s, EndUnstamped(0)) == t
  {
    hide DeleteStep, OtherStep, DeleteEnabled, OtherEnabled;
    assert s.Unlock(Relay(0)) == map[] && s.relays - {0} == map[];
  }

  lemma ReachApplied()
    ensures Reaches(INITIAL, TO_APPLIED, APPLIED)
  {
    hide Step, Enabled, Reaches;
    ReachWindow();
    ReachAppliedFromWindow();
    ReachesOn(INITIAL, TO_PUBLISHING, PUBLISHING, [XaddLands(0), EndUnstamped(0), MarkApplied(1, Confirmed)], APPLIED);
  }

  /** The same enqueue: an applied outcome is overwritten by the relay's cancel. */
  lemma WindowEnqueueLosesOutcome() returns (t: State)
    ensures Reaches(INITIAL, TO_APPLIED, APPLIED)
    ensures Reaches(INITIAL, TO_APPLIED + [DeleteCommit(7)] + [BeginRelay(0), Claim(0, 1), Cancel(0)], t)
    ensures APPLIED.rows == map[1 := APPLIED_ROW] && t.rows == map[1 := Removed(APPLIED_ROW)]
  {
    hide Step, Enabled, Reaches;
    var s1 := APPLIED.(deletes := map[7 := Committed]);
    t := s1.(rows := map[1 := Removed(APPLIED_ROW)]);
    ReachApplied();
    CommitInWindow(APPLIED);
    OneStep(APPLIED, DeleteCommit(7), s1);
    ReachCancelled(s1, t);
    ReachesOn(INITIAL, TO_APPLIED, APPLIED, [DeleteCommit(7)], s1);
    ReachesOn(INITIAL, TO_APPLIED + [DeleteCommit(7)], s1, [BeginRelay(0), Claim(0, 1), Cancel(0)], t);
  }

  lemma ReachCancelled(s: State, t: State)
    requires s == APPLIED.(deletes := map[7 := Committed]) && t == s.(rows := map[1 := Removed(APPLIED_ROW)])
    ensures Reaches(s, [BeginRelay(0), Claim(0, 1), Cancel(0)], t)
  {
    hide DeleteStep, OtherStep, DeleteEnabled, OtherEnabled, Reaches;
    var s1 := s.(relays := map[0 := Reading({1}, {7})]);
    var s2 := s.(relays := map[0 := Claimed(1, true)], locks := map[1 := Relay(0)]);
    assert s.rows.Keys == {1} && s.DeletedServers() == {7};
    assert s2.Unlock(Relay(0)) == map[] && s2.relays - {0} == map[];
    ThreeSteps(s, BeginRelay(0), s1, Claim(0, 1), s2, Cancel(0), t);
  }

  // An XADD of which the relay saw a timeout.

  const ENQUEUED := INITIAL.(rows := map[1 := PENDING])

  const SENDING := ENQUEUED.(relays := map[0 := Sending(1)], locks := map[1 := Relay(0)])

  const TIMED_OUT := ENQUEUED.(late := {1})

  const TO_TIMEOUT := [Enqueue(1, 7)] + [BeginRelay(0), Claim(0, 1), Send(0)] + [EndUnstamped(0)]

  lemma ReachFirstRow()
    ensures Reaches(INITIAL, [Enqueue(1, 7)], ENQUEUED)
  {
    hide RelayStep, DeleteStep, RelayEnabled, DeleteEnabled, Reaches;
    OneStep(INITIAL, Enqueue(1, 7), ENQUEUED);
  }

  lemma ReachSending()
    ensures Reaches(ENQUEUED, [BeginRelay(0), Claim(0, 1), Send(0)], SENDING)
  {
    hide DeleteStep, OtherStep, DeleteEnabled, OtherEnabled, Reaches;
    var s1 := ENQUEUED.(relays := map[0 := Reading({1}, {})]);
    var s2 := ENQUEUED.(relays := map[0 := Claimed(1, false)], locks := map[1 := Relay(0)]);
    assert ENQUEUED.DeletedServers() == {} && ENQUEUED.rows.Keys == {1};
    ThreeSteps(ENQUEUED, BeginRelay(0), s1, Claim(0, 1), s2, Send(0), SENDING);
  }

  lemma ReachUnstamped()
    ensures Reaches(SENDING, [EndUnstamped(0)], TIMED_OUT)
  {
    hide DeleteStep, OtherStep, DeleteEnabled, OtherEnabled, Reaches;
    assert SENDING.Unlock(Relay(0)) == map[] && SENDING.relays - {0} == map[];
    OneStep(SENDING, EndUnstamped(0), TIMED_OUT);
  }

  lemma ReachTimeout()
    ensures Reaches(INITIAL, TO_TIMEOUT, TIMED_OUT)
  {
    hide Step, Enabled, Reaches;
    ReachFirstRow();
    ReachSending();
    ReachUnstamped();
    ReachesOn(INITIAL, [Enqueue(1, 7)], ENQUEUED, [BeginRelay(0), Claim(0, 1), Send(0)], SENDING);
    ReachesOn(INITIAL, [Enqueue(1, 7)] + [BeginRelay(0), Claim(0, 1), Send(0)], SENDING, [EndUnstamped(0)], TIMED_OUT);
  }

  const COMPLETING := TIMED_OUT.(deletes := map[7 := Completing({1})], locks := map[1 := Deleter(7)])

  const STAMPING := COMPLETING.(deletes := map[7 := Stamping({1}, {1})])

  const COMMITTED := TIMED_OUT.(rows := map[1 := Removed(PENDING)], deletes := map[7 := Committed])

  const REMOVED := COMMITTED.(deletes := map[7 := Unlinked], streams := map[7 := []])

  lemma ReachCompleting()
    ensures Reaches(TIMED_OUT, [DeleteMark(7), DeleteComplete(7), DeleteLock(7, 1)], COMPLETING)
  {
    hide RelayStep, OtherStep, RelayEnabled, OtherEnabled, Reaches;
    var s1 := TIMED_OUT.(deletes := map[7 := Marked]);
    var s2 := TIMED_OUT.(deletes := map[7 := Completing({1})]);
    assert s1.RowsOf(7) == {1};
    ThreeSteps(TIMED_OUT, DeleteMark(7), s1, DeleteComplete(7), s2, DeleteLock(7, 1), COMPLETING);
  }

  lemma StampStep()
    ensures Enabled(COMPLETING, DeleteStamp(7)) && Step(COMPLETING, DeleteStamp(7)) == STAMPING
  {
    hide RelayStep, OtherStep, RelayEnabled, OtherEnabled;
    assert COMPLETING.RowsOf(7) == {1} && COMPLETING.HeldBy(Deleter(7)) == {1};
  }

  lemma CommitStep()
    ensures Enabled(STAMPING, DeleteCommit(7)) && Step(STAMPING, DeleteCommit(7)) == COMMITTED
  {
    hide RelayStep, OtherStep, RelayEnabled, OtherEnabled;
    assert CommitDelete(STAMPING, 7).rows == COMMITTED.rows && STAMPING.Unlock(Deleter(7)) == map[];
  }

  lemma ReachRemoved()
    ensures Reaches(COMPLETING, [DeleteStamp(7), DeleteCommit(7), Unlink(7)], REMOVED)
  {
    hide Step, Enabled, Reaches;
    StampStep();
    CommitStep();
    UnlinkEmpty(COMMITTED, REMOVED);
    ThreeSteps(COMPLETING, DeleteStamp(7), STAMPING, DeleteCommit(7), COMMITTED, Unlink(7), REMOVED);
  }

  lemma ReachLate(t: State)
    requires t == REMOVED.(streams := map[7 := [1]], published := {1}, late := {})
    ensures Reaches(REMOVED, [LateXadd(1)], t)
  {
    hide RelayStep, DeleteStep, RelayEnabled, DeleteEnabled, Reaches;
    assert [] + [1] == [1];
    OneStep(REMOVED, LateXadd(1), t);
  }

  const TO_COMPLETING := TO_TIMEOUT + [DeleteMark(7), DeleteComplete(7), DeleteLock(7, 1)]

  const TO_REMOVED := TO_COMPLETING + [DeleteStamp(7), DeleteCommit(7), Unlink(7)]

  /** An XADD that lands after its timeout, and after the delete: the stream is back. */
  lemma LateXaddRevivesStream() returns (t: State)
    ensures Reaches(INITIAL, TO_REMOVED, REMOVED) && Reaches(INITIAL, TO_REMOVED + [LateXadd(1)], t)
    ensures t.deletes == map[7 := Unlinked] && t.Stream(7) == [1]
  {
    hide Step, Enabled, Reaches;
    t := REMOVED.(streams := map[7 := [1]], published := {1}, late := {});
    ReachTimeout();
    ReachCompleting();
    ReachRemoved();
    ReachLate(t);
    ReachesOn(INITIAL, TO_TIMEOUT, TIMED_OUT, [DeleteMark(7), DeleteComplete(7), DeleteLock(7, 1)], COMPLETING);
    ReachesOn(INITIAL, TO_COMPLETING, COMPLETING, [DeleteStamp(7), DeleteCommit(7), Unlink(7)], REMOVED);
    ReachesOn(INITIAL, TO_REMOVED, REMOVED, [LateXadd(1)], t);
  }

  // An enqueue between the two UPDATEs.

  const FIRST_UPDATE := INITIAL.(deletes := map[7 := Completing({})])

  const BETWEEN := FIRST_UPDATE.(rows := map[1 := PENDING])

  const SEEN_LATE := BETWEEN.(deletes := map[7 := Stamping({1}, {})])

  const HELD_LATE := SEEN_LATE.(locks := map[1 := Deleter(7)])

  const DROPPED := INITIAL.(rows := map[1 := PENDING.(relayed := true)], deletes := map[7 := Committed])

  lemma ReachBetween()
    ensures Reaches(INITIAL, [DeleteMark(7), DeleteComplete(7), Enqueue(1, 7)], BETWEEN)
  {
    hide RelayStep, RelayEnabled, Reaches;
    var s1 := INITIAL.(deletes := map[7 := Marked]);
    assert s1.RowsOf(7) == {};
    ThreeSteps(INITIAL, DeleteMark(7), s1, DeleteComplete(7), FIRST_UPDATE, Enqueue(1, 7), BETWEEN);
  }

  lemma StampsLate()
    ensures Enabled(BETWEEN, DeleteStamp(7)) && Step(BETWEEN, DeleteStamp(7)) == SEEN_LATE
  {
    hide RelayStep, OtherStep, RelayEnabled, OtherEnabled;
    assert BETWEEN.RowsOf(7) == {1} && BETWEEN.HeldBy(Deleter(7)) == {};
  }

  lemma CommitDrops()
    ensures Enabled(HELD_LATE, DeleteCommit(7)) && Step(HELD_LATE, DeleteCommit(7)) == DROPPED
  {
    hide RelayStep, OtherStep, RelayEnabled, OtherEnabled;
    assert CommitDelete(HELD_LATE, 7).rows == DROPPED.rows && HELD_LATE.Unlock(Deleter(7)) == map[];
  }

  /** The first UPDATE misses the row and the second stamps it: relayed, but never published and without an outcome. */
  lemma EnqueueBetweenUpdatesDropsRow() returns (t: State)
    ensures Reaches(INITIAL, [DeleteMark(7), DeleteComplete(7), Enqueue(1, 7)] + [DeleteStamp(7), DeleteLock(7, 1), DeleteCommit(7)], t)
    ensures t.rows == map[1 := Row(7, true, false, None)] && t.Deleted(7) && t.published == {} && t.late == {}
  {
    t := DROPPED;
    ReachBetween();
    StampsLate();
    CommitDrops();
    assert Enabled(SEEN_LATE, DeleteLock(7, 1)) && Step(SEEN_LATE, DeleteLock(7, 1)) == HELD_LATE;
    hide Step, Enabled, Reaches;
    ThreeSteps(BETWEEN, DeleteStamp(7), SEEN_LATE, DeleteLock(7, 1), HELD_LATE, DeleteCommit(7), DROPPED);
    ReachesOn(INITIAL, [DeleteMark(7), DeleteComplete(7), Enqueue(1, 7)], BETWEEN, [DeleteStamp(7), DeleteLock(7, 1), DeleteCommit(7)], t);
  }
}
