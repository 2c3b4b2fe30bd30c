/**
  The conditions of the outbox theorems are exact: from every reachable state in which a condition
  fails, there is a run that breaks the promise.
 */
module OutboxExact {

  import opened Wrappers
  import opened Outbox

  /** A first step before a run. */
  lemma StepThen(s: State, a: Action, actions: seq<Action>, t: State, v: ServerId)
    requires Enabled(s, a) && Reaches(Step(s, a), actions, t)
    ensures Reaches(s, [a] + actions, t)
    ensures !a.LateXadd? && Free(LandsLate(v), Step(s, a), actions) ==> Free(LandsLate(v), s, [a] + actions)
  {
    hide Enabled, Step;
    assert ([a] + actions)[1..] == actions;
  }

  /** The rest of the row's fate is open: its server is deleted, and the delete did not stamp it. */
  ghost predicate Open(s: State, id: RowId) {
    Basics(s) && id in s.rows && s.Deleted(s.rows[id].server) && !s.rows[id].relayed
  }

  /** Same rows and deletes. */
  predicate SameRows(s: State, t: State) { t.rows == s.rows && t.deletes == s.deletes }

  lemma SendingLands(s: State, r: RelayId, id: RowId) returns (actions: seq<Action>, t: State)
    requires Open(s, id) && r in s.relays && s.relays[r] == Sending(id)
    ensures Reaches(s, actions, t) && SameRows(s, t) && Basics(t) && Free(LandsLate(s.rows[id].server), s, actions)
    ensures id in t.published && t.Stream(s.rows[id].server) != []
  {
    var a := XaddLands(r);
    actions, t := [a] + [], Step(s, a);
    assert t.Stream(s.rows[id].server)[|s.Stream(s.rows[id].server)|] == id;
    BasicsKept(s, a);
    hide Basics, Enabled, Step;
    assert Reaches(t, [], t) && Free(LandsLate(s.rows[id].server), t, []);
    StepThen(s, a, [], t, s.rows[id].server);
  }

  lemma HeldLands(s: State, r: RelayId, id: RowId) returns (actions: seq<Action>, t: State)
    requires Open(s, id) && r in s.relays && Holds(s.relays[r]) && MaySend(s, r, id)
    ensures Reaches(s, actions, t) && SameRows(s, t) && Basics(t) && Free(LandsLate(s.rows[id].server), s, actions)
    ensures id in t.published && t.Stream(s.rows[id].server) != []
  {
    if s.relays[r].Sending? {
      actions, t := SendingLands(s, r, id);
    } else {
      var a := Send(r);
      assert Enabled(s, a) && SameRows(s, Step(s, a)) && Step(s, a).relays[r] == Sending(id);
      BasicsKept(s, a);
      hide Basics, Enabled, Step;
      actions, t := SendingLands(Step(s, a), r, id);
      StepThen(s, a, actions, t, s.rows[id].server);
      actions := [a] + actions;
    }
  }

  lemma UnlockedLands(s: State, r: RelayId, id: RowId) returns (actions: seq<Action>, t: State)
    requires Open(s, id) && r in s.relays && s.relays[r].Reading? && MaySend(s, r, id) && id !in s.locks
    ensures Reaches(s, actions, t) && SameRows(s, t) && Basics(t) && Free(LandsLate(s.rows[id].server), s, actions)
    ensures id in t.published && t.Stream(s.rows[id].server) != []
  {
    var a := Claim(r, id);
    assert Enabled(s, a) && SameRows(s, Step(s, a)) && Step(s, a).relays[r] == Claimed(id, false);
    BasicsKept(s, a);
    hide Basics, Enabled, Step;
    actions, t := HeldLands(Step(s, a), r, id);
    StepThen(s, a, actions, t, s.rows[id].server);
    actions := [a] + actions;
  }

  /** A relay that holds an open row can give it up. */
  lemma GiveUp(s: State, id: RowId) returns (q: RelayId)
    requires Open(s, id) && id in s.locks
    ensures q in s.relays && Holds(s.relays[q]) && s.relays[q].row == id && s.locks[id] == Relay(q)
    ensures Enabled(s, EndUnstamped(q)) && Open(Step(s, EndUnstamped(q)), id)
    ensures var t := Step(s, EndUnstamped(q));
            && SameRows(s, t) && id !in t.locks && t.published == s.published && t.relays == s.relays - {q}
  {
    assert s.locks[id].Relay?;
    q := s.locks[id].relay;
    BasicsKept(s, EndUnstamped(q));
  }

  /** A relay that may send an open row can get its XADD to land. */
  lemma CanLand(s: State, r: RelayId, id: RowId) returns (actions: seq<Action>, t: State)
    requires Open(s, id) && MaySend(s, r, id)
    ensures Reaches(s, actions, t) && SameRows(s, t) && Basics(t) && Free(LandsLate(s.rows[id].server), s, actions)
    ensures id in t.published && t.Stream(s.rows[id].server) != []
  {
    hide Basics, Enabled, Step, Reaches, Free;
    if Holds(s.relays[r]) {
      actions, t := HeldLands(s, r, id);
    } else if id !in s.locks {
      actions, t := UnlockedLands(s, r, id);
    } else {
      var q := GiveUp(s, id);
      var a := EndUnstamped(q);
      actions, t := UnlockedLands(Step(s, a), r, id);
      StepThen(s, a, actions, t, s.rows[id].server);
      actions := [a] + actions;
    }
  }

  /** No XADD for the server is under way whose transaction is over. */
  ghost predicate NoneLate(s: State, v: ServerId) { forall id :: id in s.late ==> !IsOf(s, id, v) }

  lemma NoneLateKept(s: State, a: Action, v: ServerId)
    requires Basics(s) && Quiet(s, v) && NoneLate(s, v) && Enabled(s, a)
    ensures NoneLate(Step(s, a), v) && !Happens(LandsLate(v), s, a)
  {
    if a.EndUnstamped? && s.relays[a.relay].Sending? {
      assert MaySend(s, a.relay, s.relays[a.relay].row);
    }
    forall id | id in Step(s, a).late
      ensures !IsOf(Step(s, a), id, v)
    {
      assert id in s.late || (a.EndUnstamped? && id == s.relays[a.relay].row);
      RowServerKept(s, a, id);
    }
  }

  lemma {:induction false} NoneLateAlong(s: State, actions: seq<Action>, t: State, v: ServerId)
    requires Basics(s) && Quiet(s, v) && NoneLate(s, v) && Reaches(s, actions, t)
    ensures Free(LandsLate(v), s, actions)
    decreases |actions|
  {
    hide Enabled, Step, Quiet, Basics, Happens, NoneLate;
    if actions != [] {
      BasicsKept(s, actions[0]);
      QuietKept(s, actions[0], v);
      NoneLateKept(s, actions[0], v);
      NoneLateAlong(Step(s, actions[0]), actions[1..], t, v);
    }
  }

  /** The stream is empty in every continuation; or in every one in which no XADD for the server lands late. */
  ghost predicate StaysEmpty(s: State, v: ServerId, punctually: bool) {
    forall actions, t :: Reaches(s, actions, t) && (punctually ==> Free(LandsLate(v), s, actions)) ==> t.Stream(v) == []
  }

  /**
    Exactly when the deleted stream stays empty in every continuation: when at the UNLINK no relay is
    left that may publish to it and no XADD for it is under way.  The first alone is exact for the
    continuations in which no XADD lands late.
   */
  lemma StaysEmptyExactly(before: seq<Action>, s: State, v: ServerId)
    requires Reaches(INITIAL, before, s) && Enabled(s, Unlink(v))
    ensures StaysEmpty(Step(s, Unlink(v)), v, true) <==> Quiet(s, v)
    ensures StaysEmpty(Step(s, Unlink(v)), v, false) <==> Quiet(s, v) && NoneLate(s, v)
  {
    hide Reaches, Free, Basics, Enabled, Quiet, Step;
    var u := Step(s, Unlink(v));
    InitiallyInv(0);
    BasicsAlong(INITIAL, before, s);
    BasicsKept(s, Unlink(v));
    UnlinkTearsDown(s, v);
    UnlinkKeepsLate(s, v);
    if Quiet(s, v) {
      forall actions, t | Reaches(u, actions, t) && (NoneLate(s, v) || Free(LandsLate(v), u, actions))
        ensures t.Stream(v) == []
      {
        if NoneLate(s, v) {
          NoneLateAlong(u, actions, t, v);
        }
        DeletedStreamStaysEmpty(before, s, v, actions, t);
      }
    } else {
      SenderRevives(u, v);
    }
    if !NoneLate(s, v) {
      LateRevives(u, v);
    }
  }

  lemma UnlinkKeepsLate(s: State, v: ServerId)
    requires Enabled(s, Unlink(v))
    ensures NoneLate(Step(s, Unlink(v)), v) <==> NoneLate(s, v)
    ensures Step(s, Unlink(v)).Deleted(v)
  {}

  lemma SenderRevives(s: State, v: ServerId)
    requires Basics(s) && s.Deleted(v) && !Quiet(s, v)
    ensures !StaysEmpty(s, v, true) && !StaysEmpty(s, v, false)
  {
    var r, id :| IsOf(s, id, v) && MaySend(s, r, id);
    assert !s.rows[id].relayed;
    var actions, t := CanLand(s, r, id);
  }

  lemma LateRevives(s: State, v: ServerId)
    requires !NoneLate(s, v)
    ensures !StaysEmpty(s, v, false)
  {
    var id :| id in s.late && IsOf(s, id, v);
    var a := LateXadd(id);
    var t := Step(s, a);
    assert t.Stream(v)[|s.Stream(v)|] == id;
    OneStep(s, a, t);
  }

  /** In some continuation the row's applied outcome is replaced by another. */
  ghost predicate Overwritable(s: State, id: RowId) {
    exists first, mid, second, t :: Overwrites(s, first, mid, second, t, id)
  }

  ghost predicate Overwrites(s: State, first: seq<Action>, mid: State, second: seq<Action>, t: State, id: RowId) {
    && Reaches(s, first, mid) && Reaches(mid, second, t)
    && id in mid.rows && mid.rows[id].applied && id in t.rows && t.rows[id].outcome != mid.rows[id].outcome
  }

  lemma {:induction false} Fresh(used: set<nat>) returns (n: nat)
    ensures forall k :: k in used ==> k < n
    decreases |used|
  {
    n := 0;
    if used != {} {
      var k :| k in used;
      var m := Fresh(used - {k});
      n := if k < m then m else k + 1;
      assert forall x :: x in used ==> x == k || x in used - {k};
    }
  }

  /** A later relay cancels a pending row of the deleted server without looking. */
  lemma CanCancel(s: State, id: RowId) returns (actions: seq<Action>, t: State)
    requires Open(s, id) && id !in s.locks
    ensures Reaches(s, actions, t) && id in t.rows && t.rows[id].outcome == Some(ServerRemoved)
  {
    var r := Fresh(s.relays.Keys);
    var a, b, c := BeginRelay(r), Claim(r, id), Cancel(r);
    var s1 := Step(s, a);
    assert s.rows[id].server in s.DeletedServers();
    var s2 := Step(s1, b);
    assert s2.relays[r] == Claimed(id, true);
    t := Step(s2, c);
    hide Enabled, Step, Basics;
    ThreeSteps(s, a, s1, b, s2, c, t);
    actions := [a, b, c];
  }

  lemma UnlockedIsOverwritable(s: State, id: RowId)
    requires Open(s, id) && id in s.published && !Settled(s.rows[id]) && id !in s.locks
    ensures Overwritable(s, id)
  {
    var a := MarkApplied(id, Confirmed);
    var first, mid := [], s;
    if !s.rows[id].applied {
      first, mid := [a], Step(s, a);
      OneStep(s, a, mid);
      BasicsKept(s, a);
    }
    hide Enabled, Step, Basics;
    var second, t := CanCancel(mid, id);
    assert Overwrites(s, first, mid, second, t, id);
  }

  lemma OverwritableBefore(s: State, actions: seq<Action>, t: State, id: RowId)
    requires Reaches(s, actions, t) && Overwritable(t, id)
    ensures Overwritable(s, id)
  {
    hide Reaches;
    var first, mid, second, u :| Overwrites(t, first, mid, second, u, id);
    ReachesOn(s, actions, t, first, mid);
    assert Overwrites(s, actions + first, mid, second, u, id);
  }

  lemma PublishedIsOverwritable(s: State, id: RowId)
    requires Open(s, id) && id in s.published && !Settled(s.rows[id])
    ensures Overwritable(s, id)
  {
    hide Enabled, Step, Basics, Reaches;
    if id !in s.locks {
      UnlockedIsOverwritable(s, id);
    } else {
      var q := GiveUp(s, id);
      var t := Step(s, EndUnstamped(q));
      UnlockedIsOverwritable(t, id);
      OneStep(s, EndUnstamped(q), t);
      OverwritableBefore(s, [EndUnstamped(q)], t, id);
    }
  }

  lemma TouchedIsOverwritable(s: State, id: RowId)
    requires Open(s, id) && Touched(s, id) && !Settled(s.rows[id])
    ensures Overwritable(s, id)
  {
    if id in s.published {
      PublishedIsOverwritable(s, id);
    } else if id in s.late {
      var a := LateXadd(id);
      var t := Step(s, a);
      BasicsKept(s, a);
      OneStep(s, a, t);
      PublishedIsOverwritable(t, id);
      OverwritableBefore(s, [a], t, id);
    } else {
      var r :| MaySend(s, r, id);
      hide Enabled, Step, Basics, Reaches;
      var actions, t := CanLand(s, r, id);
      PublishedIsOverwritable(t, id);
      OverwritableBefore(s, actions, t, id);
    }
  }

  lemma {:induction false} DeletedIsFreeOfCommits(s: State, actions: seq<Action>, t: State, id: RowId)
    requires id in s.rows && s.Deleted(s.rows[id].server) && Reaches(s, actions, t)
    ensures Free(LeftBehind(id), s, actions) && id in t.rows && t.Deleted(t.rows[id].server)
    decreases |actions|
  {
    if actions != [] {
      var a := actions[0];
      StaysDeleted(s, a, s.rows[id].server);
      RowServerKept(s, a, id);
      assert !Happens(LeftBehind(id), s, a);
      hide Enabled, Step, Happens;
      DeletedIsFreeOfCommits(Step(s, a), actions[1..], t, id);
    }
  }

  /**
    The condition on the commit is exact: after a commit of its server's delete, a row's applied
    outcome can still be overwritten exactly when the commit left the row behind.
   */
  lemma OutcomeAtRiskExactlyWhenLeftBehind(before: seq<Action>, s: State, v: ServerId, id: RowId)
    requires Reaches(INITIAL, before, s) && Enabled(s, DeleteCommit(v)) && IsOf(s, id, v)
    ensures Overwritable(Step(s, DeleteCommit(v)), id) <==> Happens(LeftBehind(id), s, DeleteCommit(v))
  {
    var a := DeleteCommit(v);
    var u := Step(s, a);
    InitiallyInv(id);
    BasicsAlong(INITIAL, before, s);
    BasicsKept(s, a);
    if Happens(LeftBehind(id), s, a) {
      LeftStaysTouched(s, v, id);
      TouchedIsOverwritable(u, id);
    } else {
      SafeAfterCommit(s, v, id);
      hide Basics, Enabled, Step, Reaches, Happens;
      if Overwritable(u, id) {
        var first, mid, second, t :| Overwrites(u, first, mid, second, t, id);
        NotOverwritten(u, first, mid, second, t, id);
      }
    }
  }

  lemma LeftStaysTouched(s: State, v: ServerId, id: RowId)
    requires Enabled(s, DeleteCommit(v)) && Happens(LeftBehind(id), s, DeleteCommit(v))
    ensures var t := Step(s, DeleteCommit(v));
            Leftover(t, id) && Touched(t, id)
  {
    var t := Step(s, DeleteCommit(v));
    assert t.rows[id] == s.rows[id];
    if exists r :: MaySend(s, r, id) {
      var r :| MaySend(s, r, id);
      assert MaySend(t, r, id);
    }
  }

  /** The row is of a server whose delete is on its way, so nothing is asked of it before the commit. */
  lemma SafeAfterCommit(s: State, v: ServerId, id: RowId)
    requires Basics(s) && Enabled(s, DeleteCommit(v)) && IsOf(s, id, v) && !Happens(LeftBehind(id), s, DeleteCommit(v))
    ensures Inv(Step(s, DeleteCommit(v)), id)
    ensures var t := Step(s, DeleteCommit(v)); id in t.rows && t.Deleted(t.rows[id].server)
  {
    BasicsKept(s, DeleteCommit(v));
    CommitKeepsSafe(s, DeleteCommit(v), id);
  }

  lemma NotOverwritten(s: State, first: seq<Action>, mid: State, second: seq<Action>, t: State, id: RowId)
    requires Inv(s, id) && id in s.rows && s.Deleted(s.rows[id].server)
    requires Reaches(s, first, mid) && Reaches(mid, second, t) && id in mid.rows && mid.rows[id].applied && id in t.rows
    ensures t.rows[id].outcome == mid.rows[id].outcome
  {
    hide Reaches, Free, Inv;
    DeletedIsFreeOfCommits(s, first, mid, id);
    InvAlong(s, first, mid, id);
    DeletedIsFreeOfCommits(mid, second, t, id);
    OutcomeKeptAlong(mid, second, t, id);
  }
}
