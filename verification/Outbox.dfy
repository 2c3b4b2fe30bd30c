/**
  The Admins.cfg outbox: relay transactions against the soft-delete of a server
  (packages/db/src/admins-cfg-outbox.ts and the end of apps/api/src/lib/server-delete.ts).

  Every step of every relay, of the worker and of the delete transaction is one action, so a run
  is any interleaving of them.  Transactions read committed state; a relay's claim is two steps
  apart from the snapshot its SELECT reads (`BeginRelay`, then `Claim`, which locks the row and
  checks it again), and each UPDATE of the delete locks its rows one at a time.
 */
module Outbox {

  import opened Wrappers

  type RowId = nat
  type ServerId = nat
  type RelayId = nat

  datatype Outcome = Confirmed | FileReadyForRestart | ServerRemoved | Failure(code: nat)

  /** `relayed` and `applied` say that `relayed_at` and `applied_at` are set. */
  datatype Row = Row(server: ServerId, relayed: bool, applied: bool, outcome: Option<Outcome>)

  datatype Owner = Relay(relay: RelayId) | Deleter(server: ServerId)

  datatype RelayPhase =
    | Reading(visible: set<RowId>, removed: set<ServerId>)
    | Claimed(row: RowId, serverRemoved: bool)
    | Sending(row: RowId)
    | Sent(row: RowId)

  datatype DeletePhase =
    | Marked
    | Completing(seen: set<RowId>)
    | Stamping(seen: set<RowId>, completed: set<RowId>)
    | Committed
    | Unlinked

  datatype State = State(
    rows: map<RowId, Row>,
    locks: map<RowId, Owner>,
    relays: map<RelayId, RelayPhase>,
    deletes: map<ServerId, DeletePhase>,
    streams: map<ServerId, seq<RowId>>,
    published: set<RowId>,   // rows with an XADD that has landed, ever
    late: set<RowId>         // rows with an XADD still under way although its transaction is over
  ) {
    predicate Deleted(v: ServerId) { v in deletes && (deletes[v].Committed? || deletes[v].Unlinked?) }

    predicate Updating(v: ServerId) { Completing(v) || Stamping(v) }

    /** The first outbox UPDATE of the server's delete is on its way. */
    predicate Completing(v: ServerId) { v in deletes && deletes[v].Completing? }

    /** The second one is on its way, or done. */
    predicate Stamping(v: ServerId) { v in deletes && deletes[v].Stamping? }

    predicate LockedBy(id: RowId, o: Owner) { id in locks && locks[id] == o }

    function RowsOf(v: ServerId): set<RowId> { set id | id in rows && rows[id].server == v }

    function DeletedServers(): set<ServerId> { set v | v in deletes && Deleted(v) }

    function Stream(v: ServerId): seq<RowId> { if v in streams then streams[v] else [] }

    function HeldBy(o: Owner): set<RowId> { set id | id in locks && locks[id] == o }

    function Unlock(o: Owner): map<RowId, Owner> { map id | id in locks && locks[id] != o :: locks[id] }
  }

  const INITIAL := State(map[], map[], map[], map[], map[], {}, {})

  datatype Action =
    | Enqueue(id: RowId, server: ServerId)
    | BeginRelay(relay: RelayId)
    | Drained(relay: RelayId)
    | Claim(relay: RelayId, id: RowId)
    | Cancel(relay: RelayId)
    | Send(relay: RelayId)
    | XaddLands(relay: RelayId)
    | Stamp(relay: RelayId)
    | EndUnstamped(relay: RelayId)
    | LateXadd(id: RowId)
    | MarkApplied(id: RowId, outcome: Outcome)
    | MarkFailed(id: RowId, code: nat)
    | Consume(server: ServerId, k: nat)
    | DeleteMark(server: ServerId)
    | DeleteComplete(server: ServerId)
    | DeleteLock(server: ServerId, id: RowId)
    | DeleteStamp(server: ServerId)
    | DeleteCommit(server: ServerId)
    | DeleteAbort(server: ServerId)
    | Unlink(server: ServerId)

  predicate Holds(p: RelayPhase) { !p.Reading? }

  /** The steps of a relay transaction. */
  predicate OfRelay(a: Action) {
    || a.BeginRelay? || a.Drained? || a.Claim? || a.Cancel? || a.Send? || a.XaddLands? || a.Stamp? || a.EndUnstamped?
  }

  /** The steps of a soft-delete. */
  predicate OfDelete(a: Action) {
    || a.DeleteMark? || a.DeleteComplete? || a.DeleteLock? || a.DeleteStamp? || a.DeleteCommit? || a.DeleteAbort? || a.Unlink?
  }

  predicate Enabled(s: State, a: Action) {
    if OfRelay(a) then RelayEnabled(s, a) else if OfDelete(a) then DeleteEnabled(s, a) else OtherEnabled(s, a)
  }

  predicate RelayEnabled(s: State, a: Action)
    requires OfRelay(a)
  {
    match a
    case BeginRelay(r) => r !in s.relays
    case Drained(r) => r in s.relays && s.relays[r].Reading?
    case Claim(r, id) =>
      && r in s.relays && s.relays[r].Reading? && id in s.relays[r].visible
      && id in s.rows && !s.rows[id].relayed && id !in s.locks
    case Cancel(r) => r in s.relays && s.relays[r].Claimed? && s.relays[r].serverRemoved && s.relays[r].row in s.rows
    case Send(r) => r in s.relays && s.relays[r].Claimed? && !s.relays[r].serverRemoved
    case XaddLands(r) => r in s.relays && s.relays[r].Sending? && s.relays[r].row in s.rows
    case Stamp(r) => r in s.relays && s.relays[r].Sent? && s.relays[r].row in s.rows
    // an XADD that fails, times out or returns no id, a payload that is no object, a crash
    case EndUnstamped(r) => r in s.relays && Holds(s.relays[r])
  }

  predicate DeleteEnabled(s: State, a: Action)
    requires OfDelete(a)
  {
    match a
    case DeleteMark(v) => v !in s.deletes
    case DeleteComplete(v) => v in s.deletes && s.deletes[v].Marked?
    case DeleteLock(v, id) =>
      && s.Updating(v) && id in s.deletes[v].seen && id in s.rows && s.rows[id].server == v && id !in s.locks
      && (if s.deletes[v].Completing? then !s.rows[id].applied else !s.rows[id].relayed)
    case DeleteStamp(v) =>
      && v in s.deletes && s.deletes[v].Completing?
      && forall id :: id in s.deletes[v].seen && id in s.rows ==> s.rows[id].applied || s.LockedBy(id, Deleter(v))
    case DeleteCommit(v) =>
      && v in s.deletes && s.deletes[v].Stamping?
      && forall id :: id in s.deletes[v].seen && id in s.rows ==> s.rows[id].relayed || s.LockedBy(id, Deleter(v))
    case DeleteAbort(v) => v in s.deletes && !s.Deleted(v)
    case Unlink(v) => v in s.deletes && s.deletes[v].Committed?
  }

  predicate OtherEnabled(s: State, a: Action)
    requires !OfRelay(a) && !OfDelete(a)
  {
    match a
    case Enqueue(id, v) => id !in s.rows
    case LateXadd(id) => id in s.late && id in s.rows
    // the worker only knows rows from stream entries
    case MarkApplied(id, o) => id in s.rows && id in s.published && id !in s.locks && !o.Failure?
    case MarkFailed(id, c) => id in s.rows && id in s.published && id !in s.locks
    case Consume(v, k) => k < |s.Stream(v)|
  }

  function Removed(row: Row): Row { row.(relayed := true, applied := true, outcome := Some(ServerRemoved)) }

  /** What the commit of the delete writes to a row it holds. */
  function Cancelled(row: Row, completed: bool): Row {
    if completed then Removed(row) else row.(relayed := true)
  }

  function Publish(s: State, id: RowId): State
    requires id in s.rows
  {
    var v := s.rows[id].server;
    s.(streams := s.streams[v := s.Stream(v) + [id]], published := s.published + {id})
  }

  function EndRelay(s: State, r: RelayId): State {
    s.(relays := s.relays - {r}, locks := s.Unlock(Relay(r)))
  }

  function CommitDelete(s: State, v: ServerId): State
    requires v in s.deletes && s.deletes[v].Stamping?
  {
    s.(rows := map id | id in s.rows ::
                 if s.LockedBy(id, Deleter(v)) then Cancelled(s.rows[id], id in s.deletes[v].completed) else s.rows[id],
       locks := s.Unlock(Deleter(v)),
       deletes := s.deletes[v := Committed])
  }

  function Step(s: State, a: Action): State
    requires Enabled(s, a)
  {
    if OfRelay(a) then RelayStep(s, a) else if OfDelete(a) then DeleteStep(s, a) else OtherStep(s, a)
  }

  function RelayStep(s: State, a: Action): State
    requires OfRelay(a) && RelayEnabled(s, a)
  {
    match a
    case BeginRelay(r) => s.(relays := s.relays[r := Reading(s.rows.Keys, s.DeletedServers())])
    case Drained(r) => s.(relays := s.relays - {r})
    case Claim(r, id) =>
      s.(relays := s.relays[r := Claimed(id, s.rows[id].server in s.relays[r].removed)],
         locks := s.locks[id := Relay(r)])
    case Cancel(r) =>
      var id := s.relays[r].row;
      EndRelay(s.(rows := s.rows[id := Removed(s.rows[id])]), r)
    case Send(r) => s.(relays := s.relays[r := Sending(s.relays[r].row)])
    case XaddLands(r) =>
      var id := s.relays[r].row;
      Publish(s.(relays := s.relays[r := Sent(id)]), id)
    case Stamp(r) =>
      var id := s.relays[r].row;
      EndRelay(s.(rows := s.rows[id := s.rows[id].(relayed := true)]), r)
    case EndUnstamped(r) =>
      EndRelay(if s.relays[r].Sending? then s.(late := s.late + {s.relays[r].row}) else s, r)
  }

  function DeleteStep(s: State, a: Action): State
    requires OfDelete(a) && DeleteEnabled(s, a)
  {
    match a
    case DeleteMark(v) => s.(deletes := s.deletes[v := Marked])
    case DeleteComplete(v) => s.(deletes := s.deletes[v := Completing(s.RowsOf(v))])
    case DeleteLock(v, id) => s.(locks := s.locks[id := Deleter(v)])
    case DeleteStamp(v) =>
      s.(deletes := s.deletes[v := Stamping(s.RowsOf(v), s.HeldBy(Deleter(v)))])
    case DeleteCommit(v) => CommitDelete(s, v)
    case DeleteAbort(v) => s.(deletes := s.deletes - {v}, locks := s.Unlock(Deleter(v)))
    case Unlink(v) => s.(deletes := s.deletes[v := Unlinked], streams := s.streams[v := []])
  }

  function OtherStep(s: State, a: Action): State
    requires !OfRelay(a) && !OfDelete(a) && OtherEnabled(s, a)
  {
    match a
    case Enqueue(id, v) => s.(rows := s.rows[id := Row(v, false, false, None)])
    case LateXadd(id) => Publish(s.(late := s.late - {id}), id)
    case MarkApplied(id, o) =>
      if s.rows[id].applied then s
      else s.(rows := s.rows[id := s.rows[id].(applied := true, outcome := Some(o))])
    case MarkFailed(id, c) =>
      if s.rows[id].applied then s
      else s.(rows := s.rows[id := s.rows[id].(outcome := Some(Failure(c)))])
    case Consume(v, k) => s.(streams := s.streams[v := s.Stream(v)[..k] + s.Stream(v)[k + 1..]])
  }

  // ----- what every step of every run keeps

  ghost predicate RelayLocksMatch(s: State) {
    forall id :: id in s.locks && s.locks[id].Relay? ==>
      var r := s.locks[id].relay;
      id in s.rows && r in s.relays && Holds(s.relays[r]) && s.relays[r].row == id
  }

  ghost predicate DeleteLocksMatch(s: State) {
    forall id :: id in s.locks && s.locks[id].Deleter? ==>
      id in s.rows && s.Updating(s.locks[id].server) && s.rows[id].server == s.locks[id].server
  }

  ghost predicate HeldRowsPending(s: State) {
    forall r :: r in s.relays && Holds(s.relays[r]) ==>
      var id := s.relays[r].row;
      && s.LockedBy(id, Relay(r)) && id in s.rows && !s.rows[id].relayed
      && (s.relays[r].Sent? ==> id in s.published)
  }

  ghost predicate SnapshotsKnown(s: State) {
    && (forall r :: r in s.relays && s.relays[r].Reading? ==>
          && s.relays[r].visible <= s.rows.Keys
          && forall v :: v in s.relays[r].removed ==> s.Deleted(v))
    && forall v :: s.Updating(v) ==> s.deletes[v].seen <= s.rows.Keys
  }

  ghost predicate SentRowsKnown(s: State) { s.published <= s.rows.Keys && s.late <= s.rows.Keys }

  /** A relay that is going to cancel its row read the server as deleted, and so it is. */
  ghost predicate RemovedServersKnown(s: State) {
    forall r :: r in s.relays && s.relays[r].Claimed? && s.relays[r].serverRemoved && s.relays[r].row in s.rows ==>
      s.Deleted(s.rows[s.relays[r].row].server)
  }

  /** The first UPDATE of the server's delete completes the row. */
  predicate Completes(s: State, v: ServerId, id: RowId) { s.Stamping(v) && id in s.deletes[v].completed }

  /** The rows the first UPDATE of a delete writes to have no outcome, and the delete holds them until it ends. */
  ghost predicate CompletedRowsOpen(s: State) {
    && (forall id :: id in s.locks && s.locks[id].Deleter? && s.Completing(s.locks[id].server) ==> id in s.rows && !s.rows[id].applied)
    && (forall v, id :: Completes(s, v, id) ==> s.LockedBy(id, Deleter(v)) && id in s.rows && !s.rows[id].applied)
  }

  /** The worker applies only what it was sent. */
  ghost predicate AppliedWasSent(s: State) {
    forall id :: id in s.rows && s.rows[id].applied && !s.rows[id].relayed ==> id in s.published
  }

  /** Holds in every run, whatever is enqueued when. */
  ghost predicate Basics(s: State) {
    && RelayLocksMatch(s) && DeleteLocksMatch(s) && HeldRowsPending(s) && SnapshotsKnown(s) && SentRowsKnown(s)
    && RemovedServersKnown(s) && CompletedRowsOpen(s) && AppliedWasSent(s)
  }

  lemma RelayLocksMatchKept(s: State, a: Action)
    requires RelayLocksMatch(s) && HeldRowsPending(s) && Enabled(s, a)
    ensures RelayLocksMatch(Step(s, a))
  {
    hide Step, Enabled;
    if OfRelay(a) {
      RelayKeepsRelayLocks(s, a);
    } else if OfDelete(a) {
      DeleteKeepsRelayLocks(s, a);
    } else {
      OtherKeepsRelayLocks(s, a);
    }
  }

  lemma RelayKeepsRelayLocks(s: State, a: Action)
    requires RelayLocksMatch(s) && HeldRowsPending(s) && Enabled(s, a) && OfRelay(a)
    ensures RelayLocksMatch(Step(s, a))
  {
    hide DeleteStep, OtherStep, DeleteEnabled, OtherEnabled;
  }

  lemma DeleteKeepsRelayLocks(s: State, a: Action)
    requires RelayLocksMatch(s) && HeldRowsPending(s) && Enabled(s, a) && OfDelete(a)
    ensures RelayLocksMatch(Step(s, a))
  {
    hide RelayStep, OtherStep, RelayEnabled, OtherEnabled;
  }

  lemma OtherKeepsRelayLocks(s: State, a: Action)
    requires RelayLocksMatch(s) && HeldRowsPending(s) && Enabled(s, a) && !OfRelay(a) && !OfDelete(a)
    ensures RelayLocksMatch(Step(s, a))
  {
    hide RelayStep, DeleteStep, RelayEnabled, DeleteEnabled;
  }

  lemma DeleteLocksMatchKept(s: State, a: Action)
    requires DeleteLocksMatch(s) && Enabled(s, a)
    ensures DeleteLocksMatch(Step(s, a))
  {
    hide Step, Enabled;
    if OfRelay(a) {
      RelayKeepsDeleteLocks(s, a);
    } else if OfDelete(a) {
      DeleteKeepsDeleteLocks(s, a);
    } else {
      OtherKeepsDeleteLocks(s, a);
    }
  }

  lemma RelayKeepsDeleteLocks(s: State, a: Action)
    requires DeleteLocksMatch(s) && Enabled(s, a) && OfRelay(a)
    ensures DeleteLocksMatch(Step(s, a))
  {
    hide DeleteStep, OtherStep, DeleteEnabled, OtherEnabled;
  }

  lemma DeleteKeepsDeleteLocks(s: State, a: Action)
    requires DeleteLocksMatch(s) && Enabled(s, a) && OfDelete(a)
    ensures DeleteLocksMatch(Step(s, a))
  {
    hide RelayStep, OtherStep, RelayEnabled, OtherEnabled;
  }

  lemma OtherKeepsDeleteLocks(s: State, a: Action)
    requires DeleteLocksMatch(s) && Enabled(s, a) && !OfRelay(a) && !OfDelete(a)
    ensures DeleteLocksMatch(Step(s, a))
  {
    hide RelayStep, DeleteStep, RelayEnabled, DeleteEnabled;
  }

  lemma HeldRowsPendingKept(s: State, a: Action)
    requires HeldRowsPending(s) && Enabled(s, a)
    ensures HeldRowsPending(Step(s, a))
  {
    hide Step, Enabled;
    if OfRelay(a) {
      RelayKeepsHeldRows(s, a);
    } else if OfDelete(a) {
      DeleteKeepsHeldRows(s, a);
    } else {
      OtherKeepsHeldRows(s, a);
    }
  }

  lemma RelayKeepsHeldRows(s: State, a: Action)
    requires HeldRowsPending(s) && Enabled(s, a) && OfRelay(a)
    ensures HeldRowsPending(Step(s, a))
  {
    hide DeleteStep, OtherStep, DeleteEnabled, OtherEnabled;
  }

  lemma DeleteKeepsHeldRows(s: State, a: Action)
    requires HeldRowsPending(s) && Enabled(s, a) && OfDelete(a)
    ensures HeldRowsPending(Step(s, a))
  {
    hide RelayStep, OtherStep, RelayEnabled, OtherEnabled;
  }

  lemma OtherKeepsHeldRows(s: State, a: Action)
    requires HeldRowsPending(s) && Enabled(s, a) && !OfRelay(a) && !OfDelete(a)
    ensures HeldRowsPending(Step(s, a))
  {
    hide RelayStep, DeleteStep, RelayEnabled, DeleteEnabled;
  }

  lemma SnapshotsKnownKept(s: State, a: Action)
    requires SnapshotsKnown(s) && Enabled(s, a)
    ensures SnapshotsKnown(Step(s, a))
  {
    hide Step, Enabled;
    if OfRelay(a) {
      RelayKeepsSnapshots(s, a);
    } else if OfDelete(a) {
      DeleteKeepsSnapshots(s, a);
    } else {
      OtherKeepsSnapshots(s, a);
    }
  }

  lemma RelayKeepsSnapshots(s: State, a: Action)
    requires SnapshotsKnown(s) && Enabled(s, a) && OfRelay(a)
    ensures SnapshotsKnown(Step(s, a))
  {
    hide DeleteStep, OtherStep, DeleteEnabled, OtherEnabled;
  }

  lemma DeleteKeepsSnapshots(s: State, a: Action)
    requires SnapshotsKnown(s) && Enabled(s, a) && OfDelete(a)
    ensures SnapshotsKnown(Step(s, a))
  {
    hide RelayStep, OtherStep, RelayEnabled, OtherEnabled;
  }

  lemma OtherKeepsSnapshots(s: State, a: Action)
    requires SnapshotsKnown(s) && Enabled(s, a) && !OfRelay(a) && !OfDelete(a)
    ensures SnapshotsKnown(Step(s, a))
  {
    hide RelayStep, DeleteStep, RelayEnabled, DeleteEnabled;
  }

  lemma SentRowsKnownKept(s: State, a: Action)
    requires SentRowsKnown(s) && HeldRowsPending(s) && Enabled(s, a)
    ensures SentRowsKnown(Step(s, a))
  {}

  lemma RemovedServersKnownKept(s: State, a: Action)
    requires RemovedServersKnown(s) && HeldRowsPending(s) && SnapshotsKnown(s) && Enabled(s, a)
    ensures RemovedServersKnown(Step(s, a))
  {
    hide Step, Enabled;
    if OfRelay(a) {
      RelayKeepsRemovedServers(s, a);
    } else if OfDelete(a) {
      DeleteKeepsRemovedServers(s, a);
    } else {
      OtherKeepsRemovedServers(s, a);
    }
  }

  lemma RelayKeepsRemovedServers(s: State, a: Action)
    requires RemovedServersKnown(s) && HeldRowsPending(s) && SnapshotsKnown(s) && Enabled(s, a) && OfRelay(a)
    ensures RemovedServersKnown(Step(s, a))
  {
    hide DeleteStep, OtherStep, DeleteEnabled, OtherEnabled;
  }

  lemma DeleteKeepsRemovedServers(s: State, a: Action)
    requires RemovedServersKnown(s) && HeldRowsPending(s) && SnapshotsKnown(s) && Enabled(s, a) && OfDelete(a)
    ensures RemovedServersKnown(Step(s, a))
  {
    hide RelayStep, OtherStep, RelayEnabled, OtherEnabled;
  }

  lemma OtherKeepsRemovedServers(s: State, a: Action)
    requires RemovedServersKnown(s) && HeldRowsPending(s) && SnapshotsKnown(s) && Enabled(s, a) && !OfRelay(a) && !OfDelete(a)
    ensures RemovedServersKnown(Step(s, a))
  {
    hide RelayStep, DeleteStep, RelayEnabled, DeleteEnabled;
  }

  lemma CompletedRowsOpenKept(s: State, a: Action)
    requires CompletedRowsOpen(s) && HeldRowsPending(s) && DeleteLocksMatch(s) && Enabled(s, a)
    ensures CompletedRowsOpen(Step(s, a))
  {
    hide Step, Enabled;
    if OfRelay(a) {
      RelayKeepsCompletedOpen(s, a);
    } else if OfDelete(a) {
      DeleteKeepsCompletedOpen(s, a);
    } else {
      OtherKeepsCompletedOpen(s, a);
    }
  }

  lemma RelayKeepsCompletedOpen(s: State, a: Action)
    requires CompletedRowsOpen(s) && HeldRowsPending(s) && DeleteLocksMatch(s) && Enabled(s, a) && OfRelay(a)
    ensures CompletedRowsOpen(Step(s, a))
  {
    hide DeleteStep, OtherStep, DeleteEnabled, OtherEnabled;
    var t := Step(s, a);
    forall v, id | Completes(t, v, id)
      ensures t.LockedBy(id, Deleter(v)) && id in t.rows && !t.rows[id].applied
    {
      assert Completes(s, v, id);
    }
  }

  lemma DeleteKeepsCompletedOpen(s: State, a: Action)
    requires CompletedRowsOpen(s) && HeldRowsPending(s) && DeleteLocksMatch(s) && Enabled(s, a) && OfDelete(a)
    ensures CompletedRowsOpen(Step(s, a))
  {
    hide RelayStep, OtherStep, RelayEnabled, OtherEnabled;
    var t := Step(s, a);
    forall v, id | Completes(t, v, id)
      ensures t.LockedBy(id, Deleter(v)) && id in t.rows && !t.rows[id].applied
    {
      assert Completes(s, v, id) || (a.DeleteStamp? && a.server == v);
    }
  }

  lemma OtherKeepsCompletedOpen(s: State, a: Action)
    requires CompletedRowsOpen(s) && HeldRowsPending(s) && DeleteLocksMatch(s) && Enabled(s, a) && !OfRelay(a) && !OfDelete(a)
    ensures CompletedRowsOpen(Step(s, a))
  {
    hide RelayStep, DeleteStep, RelayEnabled, DeleteEnabled;
    var t := Step(s, a);
    forall v, id | Completes(t, v, id)
      ensures t.LockedBy(id, Deleter(v)) && id in t.rows && !t.rows[id].applied
    {
      assert Completes(s, v, id);
    }
  }

  lemma AppliedWasSentKept(s: State, a: Action)
    requires AppliedWasSent(s) && Enabled(s, a)
    ensures AppliedWasSent(Step(s, a))
  {}

  lemma BasicsKept(s: State, a: Action)
    requires Basics(s) && Enabled(s, a)
    ensures Basics(Step(s, a))
  {
    hide Step, Enabled, RelayLocksMatch, DeleteLocksMatch, HeldRowsPending, SnapshotsKnown, SentRowsKnown;
    hide RemovedServersKnown, CompletedRowsOpen, AppliedWasSent;
    RelayLocksMatchKept(s, a);
    DeleteLocksMatchKept(s, a);
    HeldRowsPendingKept(s, a);
    SnapshotsKnownKept(s, a);
    SentRowsKnownKept(s, a);
    RemovedServersKnownKept(s, a);
    CompletedRowsOpenKept(s, a);
    AppliedWasSentKept(s, a);
  }

  // ----- one row and its server's delete

  predicate IsOf(s: State, id: RowId, v: ServerId) { id in s.rows && s.rows[id].server == v }

  /** The relay is going to publish the row, or it read the row as pending and the server as active and can still claim it. */
  predicate MaySend(s: State, r: RelayId, id: RowId)
    requires id in s.rows
  {
    && r in s.relays
    && match s.relays[r]
       case Reading(visible, removed) => id in visible && s.rows[id].server !in removed && !s.rows[id].relayed
       case Claimed(row, serverRemoved) => row == id && !serverRemoved
       case Sending(row) => row == id
       case Sent(_) => false
  }

  /** No relay is left that may publish the row once its server is deleted. */
  ghost predicate Silent(s: State, id: RowId) {
    id in s.rows && s.Deleted(s.rows[id].server) ==> forall r :: !MaySend(s, r, id)
  }

  predicate Settled(row: Row) { row.applied && row.outcome == Some(ServerRemoved) }

  /** The row was published, is about to be, or has an XADD under way. */
  ghost predicate Touched(s: State, id: RowId)
    requires id in s.rows
  {
    id in s.published || id in s.late || exists r :: MaySend(s, r, id)
  }

  /** The server's delete has committed, and the row is still pending. */
  predicate Leftover(s: State, id: RowId) {
    id in s.rows && s.Deleted(s.rows[id].server) && !s.rows[id].relayed && !Settled(s.rows[id])
  }

  /** A leftover row has not been touched. */
  ghost predicate Safe(s: State, id: RowId) { Leftover(s, id) ==> !Touched(s, id) }

  /** Stamped relayed means published, or cancelled for a deleted server. */
  ghost predicate Accounted(s: State, id: RowId) {
    id in s.rows && s.rows[id].relayed ==>
      id in s.published || (s.Deleted(s.rows[id].server) && Settled(s.rows[id]))
  }

  /** Steps that a promise about a row or a server may not survive. */
  datatype Hazard =
    | LeftBehind(id: RowId)
    | Dropped(id: RowId)
    | EnqueuedBetween(id: RowId)
    | EnqueuedAfter(id: RowId)
    | LandsLate(server: ServerId)

  ghost predicate Happens(h: Hazard, s: State, a: Action) {
    match h
    // the delete commits without the row, which was touched
    case LeftBehind(id) =>
      && a.DeleteCommit? && IsOf(s, id, a.server) && !s.rows[id].relayed && !s.LockedBy(id, Deleter(a.server))
      && !Settled(s.rows[id]) && Touched(s, id)
    // the delete's second UPDATE stamps the row, but the first did not complete it and it was never published
    case Dropped(id) =>
      && a.DeleteCommit? && s.Stamping(a.server) && IsOf(s, id, a.server) && !s.rows[id].relayed && s.LockedBy(id, Deleter(a.server))
      && id !in s.deletes[a.server].completed && id !in s.published
    // the row is enqueued between the two UPDATEs of its server's delete
    case EnqueuedBetween(id) => a.Enqueue? && a.id == id && s.Completing(a.server)
    // the row is enqueued between the second UPDATE and the commit
    case EnqueuedAfter(id) => a.Enqueue? && a.id == id && s.Stamping(a.server)
    // an XADD for the server lands after its transaction is over
    case LandsLate(v) => a.LateXadd? && IsOf(s, a.id, v)
  }

  // A pending row of a deleted server.

  lemma SilentKept(s: State, a: Action, id: RowId)
    requires HeldRowsPending(s) && SnapshotsKnown(s) && Silent(s, id) && Enabled(s, a) && !a.DeleteCommit?
    ensures Silent(Step(s, a), id)
  {
    hide Step, Enabled;
    if OfRelay(a) {
      RelayKeepsSilent(s, a, id);
    } else if OfDelete(a) {
      DeleteKeepsSilent(s, a, id);
    } else {
      OtherKeepsSilent(s, a, id);
    }
  }

  lemma RelayKeepsSilent(s: State, a: Action, id: RowId)
    requires HeldRowsPending(s) && SnapshotsKnown(s) && Silent(s, id) && Enabled(s, a) && OfRelay(a)
    ensures Silent(Step(s, a), id)
  {
    hide DeleteStep, OtherStep, DeleteEnabled, OtherEnabled;
    var t := Step(s, a);
    if id in t.rows && t.Deleted(t.rows[id].server) {
      forall r
        ensures !MaySend(t, r, id)
      {
        assert !MaySend(s, r, id);
      }
    }
  }

  lemma DeleteKeepsSilent(s: State, a: Action, id: RowId)
    requires Silent(s, id) && Enabled(s, a) && OfDelete(a) && !a.DeleteCommit?
    ensures Silent(Step(s, a), id)
  {
    hide RelayStep, OtherStep, RelayEnabled, OtherEnabled;
    var t := Step(s, a);
    if id in t.rows && t.Deleted(t.rows[id].server) {
      forall r
        ensures !MaySend(t, r, id)
      {
        assert !MaySend(s, r, id);
      }
    }
  }

  lemma OtherKeepsSilent(s: State, a: Action, id: RowId)
    requires HeldRowsPending(s) && SnapshotsKnown(s) && Silent(s, id) && Enabled(s, a) && !OfRelay(a) && !OfDelete(a)
    ensures Silent(Step(s, a), id)
  {
    hide RelayStep, DeleteStep, RelayEnabled, DeleteEnabled;
    var t := Step(s, a);
    if id in t.rows && t.Deleted(t.rows[id].server) {
      forall r
        ensures !MaySend(t, r, id)
      {
        if id in s.rows {
          assert !MaySend(s, r, id);
        } else {
          assert r in s.relays && Holds(s.relays[r]) ==> s.relays[r].row in s.rows;
          assert r in s.relays && s.relays[r].Reading? ==> id !in s.relays[r].visible;
        }
      }
    }
  }

  /** A row the delete's second UPDATE holds, or that was relayed before, is not held by any relay at the commit. */
  lemma CommitFindsNoPublisher(s: State, a: Action, id: RowId)
    requires HeldRowsPending(s) && Silent(s, id) && a.DeleteCommit? && Enabled(s, a)
    requires IsOf(s, id, a.server) ==> s.rows[id].relayed || s.LockedBy(id, Deleter(a.server))
    ensures Silent(Step(s, a), id)
  {
    hide RelayStep, OtherStep, RelayEnabled, OtherEnabled;
    var t := Step(s, a);
    if id in t.rows && t.Deleted(t.rows[id].server) {
      forall r
        ensures !MaySend(t, r, id)
      {
        assert t.relays == s.relays;
        assert s.rows[id].server != a.server ==> !MaySend(s, r, id);
      }
    }
  }

  lemma UntouchedKept(s: State, a: Action, id: RowId)
    requires SentRowsKnown(s) && Safe(s, id) && Enabled(s, a) && !a.DeleteCommit? && Leftover(Step(s, a), id)
    ensures id !in Step(s, a).published && id !in Step(s, a).late
  {
    hide Step, Enabled;
    if OfRelay(a) {
      RelayLeavesUntouched(s, a, id);
    } else if OfDelete(a) {
      DeleteLeavesUntouched(s, a, id);
    } else {
      OtherLeavesUntouched(s, a, id);
    }
  }

  lemma RelayLeavesUntouched(s: State, a: Action, id: RowId)
    requires Safe(s, id) && Enabled(s, a) && OfRelay(a) && Leftover(Step(s, a), id)
    ensures id !in Step(s, a).published && id !in Step(s, a).late
  {
    hide DeleteStep, OtherStep, DeleteEnabled, OtherEnabled;
    assert !Touched(s, id);
    if a.XaddLands? || a.EndUnstamped? {
      assert !MaySend(s, a.relay, id);
    }
  }

  lemma DeleteLeavesUntouched(s: State, a: Action, id: RowId)
    requires Safe(s, id) && Enabled(s, a) && OfDelete(a) && !a.DeleteCommit? && Leftover(Step(s, a), id)
    ensures id !in Step(s, a).published && id !in Step(s, a).late
  {
    hide RelayStep, OtherStep, RelayEnabled, OtherEnabled;
    assert !Touched(s, id);
  }

  lemma OtherLeavesUntouched(s: State, a: Action, id: RowId)
    requires SentRowsKnown(s) && Safe(s, id) && Enabled(s, a) && !OfRelay(a) && !OfDelete(a) && Leftover(Step(s, a), id)
    ensures id !in Step(s, a).published && id !in Step(s, a).late
  {
    hide RelayStep, DeleteStep, RelayEnabled, DeleteEnabled;
    assert id in s.rows && !Settled(s.rows[id]) ==> !Touched(s, id);
  }

  lemma SafeKept(s: State, a: Action, id: RowId)
    requires Basics(s) && Safe(s, id) && Enabled(s, a) && !Happens(LeftBehind(id), s, a)
    ensures Safe(Step(s, a), id)
  {
    if a.DeleteCommit? {
      CommitKeepsSafe(s, a, id);
    } else {
      OthersKeepSafe(s, a, id);
    }
  }

  lemma CommitKeepsSafe(s: State, a: Action, id: RowId)
    requires Safe(s, id) && a.DeleteCommit? && Enabled(s, a) && !Happens(LeftBehind(id), s, a)
    ensures Safe(Step(s, a), id)
  {
    hide RelayStep, OtherStep, RelayEnabled, OtherEnabled;
    var t := Step(s, a);
    if Leftover(t, id) {
      assert t.rows[id] == s.rows[id] && t.relays == s.relays && !Touched(s, id);
      forall r
        ensures !MaySend(t, r, id)
      {
        assert !MaySend(s, r, id);
      }
    }
  }

  lemma OthersKeepSafe(s: State, a: Action, id: RowId)
    requires Basics(s) && Safe(s, id) && !a.DeleteCommit? && Enabled(s, a)
    ensures Safe(Step(s, a), id)
  {
    var t := Step(s, a);
    if Leftover(t, id) {
      UntouchedKept(s, a, id);
      StillUnsettled(s, a, id);
      SilentKept(s, a, id);
    }
    hide Step, Enabled;
  }

  lemma StillUnsettled(s: State, a: Action, id: RowId)
    requires HeldRowsPending(s) && Safe(s, id) && !a.DeleteCommit? && Enabled(s, a) && Leftover(Step(s, a), id)
    ensures Silent(s, id)
  {
    hide MaySend;
    if id in s.rows {
      UnsettledBefore(s, a, id);
      assert s.Deleted(s.rows[id].server) ==> !Touched(s, id);
    }
  }

  /** A row that is pending without the final outcome was so before. */
  lemma UnsettledBefore(s: State, a: Action, id: RowId)
    requires !a.DeleteCommit? && Enabled(s, a) && id in s.rows && id in Step(s, a).rows
    requires !Step(s, a).rows[id].relayed && !Settled(Step(s, a).rows[id])
    ensures !s.rows[id].relayed && !Settled(s.rows[id])
  {}

  ghost predicate Inv(s: State, id: RowId) { Basics(s) && Safe(s, id) }

  /** One step of any actor keeps the invariant of a row, unless its server's delete leaves the row behind. */
  lemma InvKept(s: State, a: Action, id: RowId)
    requires Inv(s, id) && Enabled(s, a) && !Happens(LeftBehind(id), s, a)
    ensures Inv(Step(s, a), id)
  {
    hide Step, Enabled, Happens, Basics, Safe;
    BasicsKept(s, a);
    SafeKept(s, a, id);
  }

  /** No step writes an outcome over an applied one: not even the relay's cancel, which does not look. */
  lemma OutcomeKept(s: State, a: Action, id: RowId)
    requires id in s.rows && s.rows[id].applied && Inv(s, id) && Enabled(s, a)
    ensures id in Step(s, a).rows && Step(s, a).rows[id].server == s.rows[id].server
    ensures Step(s, a).rows[id].applied && Step(s, a).rows[id].outcome == s.rows[id].outcome
  {
    match a
    case Cancel(_) => CancelSparesApplied(s, a, id);
    case DeleteCommit(_) => CommitSparesApplied(s, a, id);
    case _ => OthersSpareApplied(s, a, id);
  }

  lemma CancelSparesApplied(s: State, a: Action, id: RowId)
    requires id in s.rows && s.rows[id].applied && Inv(s, id) && a.Cancel? && Enabled(s, a)
    ensures id in Step(s, a).rows && Step(s, a).rows[id].server == s.rows[id].server
    ensures Step(s, a).rows[id].applied && Step(s, a).rows[id].outcome == s.rows[id].outcome
  {
    hide RelayLocksMatch, DeleteLocksMatch, SnapshotsKnown, CompletedRowsOpen, DeleteStep, OtherStep, DeleteEnabled, OtherEnabled;
  }

  lemma CommitSparesApplied(s: State, a: Action, id: RowId)
    requires id in s.rows && s.rows[id].applied && Inv(s, id) && a.DeleteCommit? && Enabled(s, a)
    ensures id in Step(s, a).rows && Step(s, a).rows[id].server == s.rows[id].server
    ensures Step(s, a).rows[id].applied && Step(s, a).rows[id].outcome == s.rows[id].outcome
  {
    hide RelayLocksMatch, HeldRowsPending, SnapshotsKnown, Safe, AppliedWasSent, RelayStep, OtherStep, RelayEnabled, OtherEnabled;
  }

  lemma OthersSpareApplied(s: State, a: Action, id: RowId)
    requires id in s.rows && s.rows[id].applied && !a.Cancel? && !a.DeleteCommit? && Enabled(s, a)
    ensures id in Step(s, a).rows && Step(s, a).rows[id].server == s.rows[id].server
    ensures Step(s, a).rows[id].applied && Step(s, a).rows[id].outcome == s.rows[id].outcome
  {}

  /** Exactly one step makes a row relayed that was neither published nor cancelled. */
  lemma AccountedUnlessDropped(s: State, a: Action, id: RowId)
    requires Basics(s) && Accounted(s, id) && Enabled(s, a)
    ensures Accounted(Step(s, a), id) <==> !Happens(Dropped(id), s, a)
  {
    if OfRelay(a) {
      RelayAccounts(s, a, id);
    } else if a.DeleteCommit? {
      CommitAccounts(s, a, id);
    } else if OfDelete(a) {
      DeleteAccounts(s, a, id);
    } else {
      OtherAccounts(s, a, id);
    }
    hide Step, Enabled;
  }

  lemma RelayAccounts(s: State, a: Action, id: RowId)
    requires HeldRowsPending(s) && RemovedServersKnown(s) && Accounted(s, id) && Enabled(s, a) && OfRelay(a)
    ensures Accounted(Step(s, a), id)
  {
    hide DeleteStep, OtherStep, DeleteEnabled, OtherEnabled;
  }

  lemma CommitAccounts(s: State, a: Action, id: RowId)
    requires DeleteLocksMatch(s) && CompletedRowsOpen(s) && AppliedWasSent(s) && Accounted(s, id) && Enabled(s, a) && a.DeleteCommit?
    ensures Accounted(Step(s, a), id) <==> !Happens(Dropped(id), s, a)
  {
    hide RelayStep, OtherStep, RelayEnabled, OtherEnabled;
  }

  lemma DeleteAccounts(s: State, a: Action, id: RowId)
    requires Accounted(s, id) && Enabled(s, a) && OfDelete(a) && !a.DeleteCommit?
    ensures Accounted(Step(s, a), id)
  {
    hide RelayStep, OtherStep, RelayEnabled, OtherEnabled;
  }

  lemma OtherAccounts(s: State, a: Action, id: RowId)
    requires Accounted(s, id) && Enabled(s, a) && !OfRelay(a) && !OfDelete(a)
    ensures Accounted(Step(s, a), id)
  {
    hide RelayStep, DeleteStep, RelayEnabled, DeleteEnabled;
  }

  // ----- where the two commits come from

  /** The second UPDATE of the delete sees the row, unless it was enqueued later. */
  ghost predicate Covered(s: State, id: RowId) {
    id in s.rows && s.Stamping(s.rows[id].server) ==> id in s.deletes[s.rows[id].server].seen
  }

  lemma CoveredKept(s: State, a: Action, id: RowId)
    requires Covered(s, id) && Enabled(s, a) && !Happens(EnqueuedAfter(id), s, a)
    ensures Covered(Step(s, a), id)
  {
    if !OfDelete(a) {
      assert Step(s, a).deletes == s.deletes;
    } else if a.DeleteCommit? {
      assert !Step(s, a).Stamping(a.server);
    } else {
      assert Step(s, a).rows == s.rows;
    }
  }

  /** A covered row is relayed or held by the delete when it commits, so it is not left behind. */
  lemma CoveredNotLeft(s: State, a: Action, id: RowId)
    requires Basics(s) && Covered(s, id) && Silent(s, id) && Enabled(s, a)
    ensures !Happens(LeftBehind(id), s, a)
    ensures Silent(Step(s, a), id)
  {
    if a.DeleteCommit? {
      CommitFindsNoPublisher(s, a, id);
    } else {
      SilentKept(s, a, id);
    }
  }

  /** The first UPDATE of the delete completes the row, unless it has an outcome or was enqueued later. */
  ghost predicate Finished(s: State, id: RowId) {
    id in s.rows ==>
      var v := s.rows[id].server;
      && (s.Completing(v) ==> id in s.deletes[v].seen)
      && (s.Stamping(v) ==>
            || id in s.deletes[v].completed || s.rows[id].applied
            || (id !in s.deletes[v].seen && !s.LockedBy(id, Deleter(v))))
  }

  lemma FinishedKept(s: State, a: Action, id: RowId)
    requires Basics(s) && Finished(s, id) && Enabled(s, a) && !Happens(EnqueuedBetween(id), s, a)
    ensures Finished(Step(s, a), id)
  {
    hide Step, Enabled;
    if OfRelay(a) {
      RelayKeepsFinished(s, a, id);
    } else if OfDelete(a) {
      DeleteKeepsFinished(s, a, id);
    } else {
      OtherKeepsFinished(s, a, id);
    }
  }

  lemma RelayKeepsFinished(s: State, a: Action, id: RowId)
    requires HeldRowsPending(s) && Finished(s, id) && Enabled(s, a) && OfRelay(a)
    ensures Finished(Step(s, a), id)
  {
    hide DeleteStep, OtherStep, DeleteEnabled, OtherEnabled;
  }

  lemma DeleteKeepsFinished(s: State, a: Action, id: RowId)
    requires DeleteLocksMatch(s) && Finished(s, id) && Enabled(s, a) && OfDelete(a)
    ensures Finished(Step(s, a), id)
  {
    hide RelayStep, OtherStep, RelayEnabled, OtherEnabled;
  }

  lemma OtherKeepsFinished(s: State, a: Action, id: RowId)
    requires SnapshotsKnown(s) && DeleteLocksMatch(s) && Finished(s, id) && Enabled(s, a) && !OfRelay(a) && !OfDelete(a)
    requires !Happens(EnqueuedBetween(id), s, a)
    ensures Finished(Step(s, a), id)
  {
    hide RelayStep, DeleteStep, RelayEnabled, DeleteEnabled;
  }

  lemma FinishedNotDropped(s: State, a: Action, id: RowId)
    requires AppliedWasSent(s) && Finished(s, id) && Enabled(s, a)
    ensures !Happens(Dropped(id), s, a)
  {}

  // ----- runs

  ghost predicate Reaches(s: State, actions: seq<Action>, t: State)
    decreases |actions|
  {
    if actions == [] then s == t
    else Enabled(s, actions[0]) && Reaches(Step(s, actions[0]), actions[1..], t)
  }

  /** The run has no such step. */
  ghost predicate Free(h: Hazard, s: State, actions: seq<Action>)
    decreases |actions|
  {
    actions != [] && Enabled(s, actions[0]) ==> !Happens(h, s, actions[0]) && Free(h, Step(s, actions[0]), actions[1..])
  }

  lemma {:induction false} ReachesOn(s: State, first: seq<Action>, t: State, second: seq<Action>, u: State)
    requires Reaches(s, first, t) && Reaches(t, second, u)
    ensures Reaches(s, first + second, u)
    decreases |first|
  {
    hide Enabled, Step;
    if first == [] {
      assert first + second == second;
    } else {
      ReachesOn(Step(s, first[0]), first[1..], t, second, u);
      assert (first + second)[1..] == first[1..] + second;
    }
  }

  lemma OneStep(s: State, a: Action, t: State)
    requires Enabled(s, a) && Step(s, a) == t
    ensures Reaches(s, [a], t)
  {
    hide Enabled, Step;
    assert [a][1..] == [];
    assert Reaches(t, [], t);
  }

  lemma ThreeSteps(s: State, a: Action, t: State, b: Action, u: State, c: Action, w: State)
    requires Enabled(s, a) && Step(s, a) == t && Enabled(t, b) && Step(t, b) == u && Enabled(u, c) && Step(u, c) == w
    ensures Reaches(s, [a, b, c], w)
  {
    hide Enabled, Step;
    OneStep(s, a, t);
    OneStep(t, b, u);
    OneStep(u, c, w);
    ReachesOn(s, [a], t, [b], u);
    ReachesOn(s, [a] + [b], u, [c], w);
    assert [a] + [b] + [c] == [a, b, c];
  }

  lemma InitiallyInv(id: RowId)
    ensures Inv(INITIAL, id) && Accounted(INITIAL, id) && Silent(INITIAL, id) && Covered(INITIAL, id) && Finished(INITIAL, id)
  {}

  lemma {:induction false} BasicsAlong(s: State, actions: seq<Action>, t: State)
    requires Basics(s) && Reaches(s, actions, t)
    ensures Basics(t)
    decreases |actions|
  {
    hide Basics, Enabled, Step;
    if actions != [] {
      BasicsKept(s, actions[0]);
      BasicsAlong(Step(s, actions[0]), actions[1..], t);
    }
  }

  lemma {:induction false} InvAlong(s: State, actions: seq<Action>, t: State, id: RowId)
    requires Inv(s, id) && Reaches(s, actions, t) && Free(LeftBehind(id), s, actions)
    ensures Inv(t, id)
    decreases |actions|
  {
    hide Inv, Enabled, Step, Happens;
    if actions != [] {
      InvKept(s, actions[0], id);
      InvAlong(Step(s, actions[0]), actions[1..], t, id);
    }
  }

  lemma {:induction false} OutcomeKeptAlong(s: State, actions: seq<Action>, t: State, id: RowId)
    requires id in s.rows && s.rows[id].applied
    requires Inv(s, id) && Reaches(s, actions, t) && Free(LeftBehind(id), s, actions)
    ensures id in t.rows && t.rows[id].applied && t.rows[id].outcome == s.rows[id].outcome
    decreases |actions|
  {
    hide Enabled, Step, Inv, Happens;
    if actions != [] {
      OutcomeKept(s, actions[0], id);
      InvKept(s, actions[0], id);
      OutcomeKeptAlong(Step(s, actions[0]), actions[1..], t, id);
    }
  }

  /**
    Whatever happens after a row's outcome is applied, it stays the outcome of that row, as long as
    no commit of its server's delete leaves the row behind.
   */
  lemma OutcomesAreFinal(before: seq<Action>, s: State, after: seq<Action>, t: State, id: RowId)
    requires Reaches(INITIAL, before, s) && id in s.rows && s.rows[id].applied && Free(LeftBehind(id), INITIAL, before)
    requires Reaches(s, after, t) && Free(LeftBehind(id), s, after)
    ensures id in t.rows && t.rows[id].applied && t.rows[id].outcome == s.rows[id].outcome
  {
    hide Reaches, Free, Inv, Accounted, Silent, Covered, Finished;
    InitiallyInv(id);
    InvAlong(INITIAL, before, s, id);
    OutcomeKeptAlong(s, after, t, id);
  }

  ghost predicate AccountedThroughout(s: State, actions: seq<Action>, id: RowId)
    decreases |actions|
  {
    && Accounted(s, id)
    && (actions != [] && Enabled(s, actions[0]) ==> AccountedThroughout(Step(s, actions[0]), actions[1..], id))
  }

  lemma {:induction false} AccountedAlong(s: State, actions: seq<Action>, t: State, id: RowId)
    requires Basics(s) && Accounted(s, id) && Reaches(s, actions, t)
    ensures AccountedThroughout(s, actions, id) <==> Free(Dropped(id), s, actions)
    ensures Free(Dropped(id), s, actions) ==> Accounted(t, id)
    decreases |actions|
  {
    hide Enabled, Step, Basics, Accounted, Happens;
    if actions != [] {
      BasicsKept(s, actions[0]);
      AccountedUnlessDropped(s, actions[0], id);
      if !Happens(Dropped(id), s, actions[0]) {
        AccountedAlong(Step(s, actions[0]), actions[1..], t, id);
      } else {
        assert !Accounted(Step(s, actions[0]), id);
        assert !AccountedThroughout(Step(s, actions[0]), actions[1..], id);
      }
    }
  }

  /**
    Nothing is stamped relayed unless its own entry was published or it was cancelled for a deleted
    server.  This holds throughout a run exactly when no commit of the delete drops the row: stamps
    it, though the first UPDATE did not complete it and it was never published.
   */
  lemma RelayedMeansPublishedOrCancelled(actions: seq<Action>, s: State, id: RowId)
    requires Reaches(INITIAL, actions, s)
    ensures AccountedThroughout(INITIAL, actions, id) <==> Free(Dropped(id), INITIAL, actions)
    ensures Free(Dropped(id), INITIAL, actions) && id in s.rows && s.rows[id].relayed ==>
              id in s.published || (s.Deleted(s.rows[id].server) && s.rows[id].outcome == Some(ServerRemoved))
  {
    hide Reaches, Free, AccountedThroughout, Basics, Safe, Silent, Covered, Finished;
    InitiallyInv(id);
    AccountedAlong(INITIAL, actions, s, id);
  }

  lemma {:induction false} NotLeftAlong(s: State, actions: seq<Action>, t: State, id: RowId)
    requires Basics(s) && Covered(s, id) && Silent(s, id) && Reaches(s, actions, t) && Free(EnqueuedAfter(id), s, actions)
    ensures Free(LeftBehind(id), s, actions) && Silent(t, id)
    decreases |actions|
  {
    hide Enabled, Step, Basics, Covered, Silent, Happens;
    if actions != [] {
      BasicsKept(s, actions[0]);
      CoveredKept(s, actions[0], id);
      CoveredNotLeft(s, actions[0], id);
      NotLeftAlong(Step(s, actions[0]), actions[1..], t, id);
    }
  }

  lemma {:induction false} NotDroppedAlong(s: State, actions: seq<Action>, t: State, id: RowId)
    requires Basics(s) && Finished(s, id) && Reaches(s, actions, t) && Free(EnqueuedBetween(id), s, actions)
    ensures Free(Dropped(id), s, actions)
    decreases |actions|
  {
    hide Enabled, Step, Finished, Happens;
    if actions != [] {
      BasicsKept(s, actions[0]);
      FinishedKept(s, actions[0], id);
      FinishedNotDropped(s, actions[0], id);
      NotDroppedAlong(Step(s, actions[0]), actions[1..], t, id);
    }
  }

  /**
    Only a row's own enqueue can do harm, each half of the window its own: between the delete's two
    UPDATEs it gets the row dropped; between the second UPDATE and the commit it gets the row left
    behind, or leaves a relay that may publish to the deleted server.
   */
  lemma OnlyTheWindowMatters(actions: seq<Action>, s: State, id: RowId)
    requires Reaches(INITIAL, actions, s)
    ensures Free(EnqueuedBetween(id), INITIAL, actions) ==> Free(Dropped(id), INITIAL, actions)
    ensures Free(EnqueuedAfter(id), INITIAL, actions) ==> Free(LeftBehind(id), INITIAL, actions) && Silent(s, id)
  {
    hide Reaches, Free, Basics, Safe, Silent, Covered, Finished, Accounted;
    InitiallyInv(id);
    if Free(EnqueuedBetween(id), INITIAL, actions) {
      NotDroppedAlong(INITIAL, actions, s, id);
    }
    if Free(EnqueuedAfter(id), INITIAL, actions) {
      NotLeftAlong(INITIAL, actions, s, id);
    }
  }

  // ----- the stream of a deleted server

  /** No relay is left that may publish to the server. */
  ghost predicate Quiet(s: State, v: ServerId) {
    s.Deleted(v) && forall r, id :: IsOf(s, id, v) ==> !MaySend(s, r, id)
  }

  /** There is none if no row of the server was enqueued between the second UPDATE and the commit. */
  lemma QuietUnlessEnqueuedAfter(actions: seq<Action>, s: State, v: ServerId)
    requires Reaches(INITIAL, actions, s) && s.Deleted(v)
    requires forall id :: IsOf(s, id, v) ==> Free(EnqueuedAfter(id), INITIAL, actions)
    ensures Quiet(s, v)
  {
    hide Reaches, Free, MaySend;
    forall r, id | IsOf(s, id, v)
      ensures !MaySend(s, r, id)
    {
      OnlyTheWindowMatters(actions, s, id);
    }
  }

  lemma QuietKept(s: State, a: Action, v: ServerId)
    requires Basics(s) && Quiet(s, v) && Enabled(s, a)
    ensures Quiet(Step(s, a), v)
  {
    hide Step, Enabled, Basics, MaySend;
    var t := Step(s, a);
    StaysDeleted(s, a, v);
    forall r, id | IsOf(t, id, v)
      ensures !MaySend(t, r, id)
    {
      if id in s.rows {
        RowServerKept(s, a, id);
      }
      StaysSilent(s, a, id);
    }
  }

  lemma StaysSilent(s: State, a: Action, id: RowId)
    requires Basics(s) && Silent(s, id) && Enabled(s, a) && (id in s.rows ==> s.Deleted(s.rows[id].server))
    ensures Silent(Step(s, a), id)
  {
    if a.DeleteCommit? {
      CommitFindsNoPublisher(s, a, id);
    } else {
      SilentKept(s, a, id);
    }
  }

  lemma StaysDeleted(s: State, a: Action, v: ServerId)
    requires s.Deleted(v) && Enabled(s, a)
    ensures Step(s, a).Deleted(v)
  {
    assert !OfDelete(a) ==> Step(s, a).deletes == s.deletes;
  }

  lemma RowServerKept(s: State, a: Action, id: RowId)
    requires Enabled(s, a) && id in s.rows
    ensures id in Step(s, a).rows && Step(s, a).rows[id].server == s.rows[id].server
  {
    if OfDelete(a) {
      assert !a.DeleteCommit? ==> Step(s, a).rows == s.rows;
    } else {
      assert s.rows.Keys <= Step(s, a).rows.Keys;
    }
  }

  ghost predicate TornDown(s: State, v: ServerId) {
    v in s.deletes && s.deletes[v].Unlinked? && s.Stream(v) == []
  }

  lemma TornDownKept(s: State, a: Action, v: ServerId)
    requires Quiet(s, v) && TornDown(s, v) && Enabled(s, a) && !Happens(LandsLate(v), s, a)
    ensures TornDown(Step(s, a), v)
  {
    hide Step, Enabled;
    if OfRelay(a) {
      RelayKeepsTornDown(s, a, v);
    } else if OfDelete(a) {
      DeleteKeepsTornDown(s, a, v);
    } else {
      OtherKeepsTornDown(s, a, v);
    }
  }

  lemma RelayKeepsTornDown(s: State, a: Action, v: ServerId)
    requires Quiet(s, v) && TornDown(s, v) && Enabled(s, a) && OfRelay(a)
    ensures TornDown(Step(s, a), v)
  {
    hide DeleteStep, OtherStep, DeleteEnabled, OtherEnabled;
    if a.XaddLands? {
      var id := s.relays[a.relay].row;
      assert MaySend(s, a.relay, id) && !IsOf(s, id, v);
    }
  }

  lemma DeleteKeepsTornDown(s: State, a: Action, v: ServerId)
    requires TornDown(s, v) && Enabled(s, a) && OfDelete(a)
    ensures TornDown(Step(s, a), v)
  {
    hide RelayStep, OtherStep, RelayEnabled, OtherEnabled;
  }

  lemma OtherKeepsTornDown(s: State, a: Action, v: ServerId)
    requires TornDown(s, v) && Enabled(s, a) && !OfRelay(a) && !OfDelete(a) && !Happens(LandsLate(v), s, a)
    ensures TornDown(Step(s, a), v)
  {
    hide RelayStep, DeleteStep, RelayEnabled, DeleteEnabled;
  }

  lemma {:induction false} TornDownAlong(s: State, actions: seq<Action>, t: State, v: ServerId)
    requires Basics(s) && Quiet(s, v) && TornDown(s, v) && Reaches(s, actions, t) && Free(LandsLate(v), s, actions)
    ensures Quiet(t, v) && TornDown(t, v)
    decreases |actions|
  {
    hide Enabled, Step, TornDown, Quiet, Basics, Happens;
    if actions != [] {
      BasicsKept(s, actions[0]);
      QuietKept(s, actions[0], v);
      TornDownKept(s, actions[0], v);
      TornDownAlong(Step(s, actions[0]), actions[1..], t, v);
    }
  }

  lemma UnlinkTearsDown(s: State, v: ServerId)
    requires Enabled(s, Unlink(v))
    ensures TornDown(Step(s, Unlink(v)), v)
    ensures Quiet(Step(s, Unlink(v)), v) <==> Quiet(s, v)
  {
    var t := Step(s, Unlink(v));
    assert t.rows == s.rows && t.relays == s.relays;
    if Quiet(s, v) {
      forall r, id | IsOf(t, id, v)
        ensures !MaySend(t, r, id)
      {
        assert IsOf(s, id, v) && !MaySend(s, r, id);
      }
    }
    if Quiet(t, v) {
      forall r, id | IsOf(s, id, v)
        ensures !MaySend(s, r, id)
      {
        assert IsOf(t, id, v) && !MaySend(t, r, id);
      }
    }
  }

  /**
    After a delete's UNLINK the server's stream is empty and stays so, and no relay is ever again
    about to publish to it, as long as none was when the delete unlinked it and no XADD for the server
    lands after its transaction is over.
   */
  lemma DeletedStreamStaysEmpty(before: seq<Action>, s: State, v: ServerId, after: seq<Action>, t: State)
    requires Reaches(INITIAL, before, s) && Enabled(s, Unlink(v)) && Quiet(s, v)
    requires Reaches(Step(s, Unlink(v)), after, t) && Free(LandsLate(v), Step(s, Unlink(v)), after)
    ensures t.Stream(v) == []
    ensures forall r :: Enabled(t, XaddLands(r)) ==> t.rows[t.relays[r].row].server != v
  {
    hide Reaches, Free, Basics, Enabled, Step;
    InitiallyInv(0);
    BasicsAlong(INITIAL, before, s);
    BasicsKept(s, Unlink(v));
    UnlinkTearsDown(s, v);
    TornDownAlong(Step(s, Unlink(v)), after, t, v);
    NoPublisherLeft(t, v);
  }

  lemma NoPublisherLeft(s: State, v: ServerId)
    requires Quiet(s, v)
    ensures forall r :: Enabled(s, XaddLands(r)) ==> s.rows[s.relays[r].row].server != v
  {
    forall r | Enabled(s, XaddLands(r))
      ensures !IsOf(s, s.relays[r].row, v)
    {
      assert MaySend(s, r, s.relays[r].row);
    }
  }
}
