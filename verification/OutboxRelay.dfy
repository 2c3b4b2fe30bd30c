/**
  One run of `relayAdminsCfgSyncOutbox` over a table nobody else changes meanwhile
  (packages/db/src/admins-cfg-outbox.ts).
 */
module OutboxRelay {

  import opened Wrappers

  datatype Outcome = ServerRemoved | Other(code: nat)

  datatype Row = Row(
    id: nat,
    serverDeleted: bool,
    payloadIsObject: bool,
    relayed: bool,
    streamId: Option<nat>,
    applied: bool,
    outcome: Option<Outcome>,
    lastError: Option<nat>
  )

  /** What Redis does with one XADD. */
  datatype Xadd = EntryId(stream: nat) | NoId | Refused(error: nat) | NoAnswer

  datatype Error = InvalidPayload | MissingStreamId | XaddFailed(error: nat) | XaddTimeout

  datatype Published = Published(stream: nat) | NotPublished(error: Error)

  datatype Step = Drained | StepRelayed | StepCancelled | StepFailed(id: nat, error: Error)

  datatype Result = Relayed(count: nat) | Thrown(error: Error)

  function PublishRow(row: Row, xadd: nat -> Xadd): Published {
    if !row.payloadIsObject then NotPublished(InvalidPayload) else
    match xadd(row.id)
    case EntryId(s) => Published(s)
    case NoId => NotPublished(MissingStreamId)
    case Refused(e) => NotPublished(XaddFailed(e))
    case NoAnswer => NotPublished(XaddTimeout)
  }

  // ----- what one run does, without the loop

  predicate Claimable(row: Row, locked: set<nat>, skipped: set<nat>) {
    !row.relayed && row.id !in locked && row.id !in skipped
  }

  /** The rows a relay may claim, oldest first. */
  function Pending(rows: seq<Row>, locked: set<nat>, skipped: set<nat>): seq<Row> {
    if rows == [] then []
    else (if Claimable(rows[0], locked, skipped) then [rows[0]] else []) + Pending(rows[1..], locked, skipped)
  }

  predicate Fails(row: Row, xadd: nat -> Xadd) { !row.serverDeleted && PublishRow(row, xadd).NotPublished? }

  predicate Publishes(row: Row, xadd: nat -> Xadd) { !row.serverDeleted && PublishRow(row, xadd).Published? }

  /** A claimed row after its transaction. */
  function Settled(row: Row, xadd: nat -> Xadd): Row {
    if row.serverDeleted then row.(relayed := true, applied := true, outcome := Some(ServerRemoved), lastError := None)
    else match PublishRow(row, xadd)
      case Published(s) => row.(relayed := true, streamId := Some(s))
      case NotPublished(_) => row
  }

  /** When a row is published, and why it is not. */
  lemma PublishedExactly(row: Row, xadd: nat -> Xadd)
    ensures Publishes(row, xadd) <==> !row.serverDeleted && row.payloadIsObject && xadd(row.id).EntryId?
    ensures Fails(row, xadd) <==> !row.serverDeleted && !(row.payloadIsObject && xadd(row.id).EntryId?)
    ensures Fails(row, xadd) ==>
              PublishRow(row, xadd).error == if !row.payloadIsObject then InvalidPayload
                                             else if xadd(row.id).NoId? then MissingStreamId
                                             else if xadd(row.id).NoAnswer? then XaddTimeout
                                             else XaddFailed(xadd(row.id).error)
  {}

  /** Column by column: what the transaction leaves in a claimed row. */
  lemma SettledExactly(row: Row, xadd: nat -> Xadd)
    ensures var r := Settled(row, xadd);
            && r.id == row.id && r.serverDeleted == row.serverDeleted && r.payloadIsObject == row.payloadIsObject
            && (r.relayed <==> row.relayed || row.serverDeleted || Publishes(row, xadd))
            && r.streamId == (if Publishes(row, xadd) then Some(xadd(row.id).stream) else row.streamId)
            && (r.applied <==> row.applied || row.serverDeleted)
            && r.outcome == (if row.serverDeleted then Some(ServerRemoved) else row.outcome)
            && r.lastError == (if row.serverDeleted then None else row.lastError)
  {}

  /** The failures at the end of `tried`. */
  function FailureStreak(tried: seq<Row>, xadd: nat -> Xadd): nat {
    if tried == [] || !Fails(tried[|tried| - 1], xadd) then 0 else 1 + FailureStreak(tried[..|tried| - 1], xadd)
  }

  function FirstFailure(tried: seq<Row>, xadd: nat -> Xadd): Option<Error> {
    if tried == [] then None
    else if FirstFailure(tried[..|tried| - 1], xadd).Some? then FirstFailure(tried[..|tried| - 1], xadd)
    else if Fails(tried[|tried| - 1], xadd) then Some(PublishRow(tried[|tried| - 1], xadd).error) else None
  }

  function PublishedCount(tried: seq<Row>, xadd: nat -> Xadd): nat {
    if tried == [] then 0
    else PublishedCount(tried[..|tried| - 1], xadd) + if Publishes(tried[|tried| - 1], xadd) then 1 else 0
  }

  ghost predicate DistinctIds(rows: seq<Row>) {
    forall i, j :: 0 <= i < j < |rows| ==> rows[i].id != rows[j].id
  }

  ghost predicate Tried(row: Row, tried: seq<Row>) { exists k :: 0 <= k < |tried| && tried[k].id == row.id }

  // ----- lemmas on the queue

  lemma {:induction false} PendingAre(rows: seq<Row>, locked: set<nat>, skipped: set<nat>, row: Row)
    ensures row in Pending(rows, locked, skipped) <==> row in rows && Claimable(row, locked, skipped)
  {
    if rows != [] {
      PendingAre(rows[1..], locked, skipped, row);
      assert rows == [rows[0]] + rows[1..];
    }
  }

  lemma {:induction false} PendingOnce(rows: seq<Row>, locked: set<nat>, skipped: set<nat>)
    requires DistinctIds(rows)
    ensures DistinctIds(Pending(rows, locked, skipped))
  {
    if rows != [] {
      var rest := Pending(rows[1..], locked, skipped);
      PendingOnce(rows[1..], locked, skipped);
      forall i | 0 <= i < |rest|
        ensures rest[i].id != rows[0].id
      {
        PendingAre(rows[1..], locked, skipped, rest[i]);
      }
    }
  }

  /** Rows that are not claimable can be dropped from the search without changing what is pending. */
  lemma {:induction false} PendingOfParts(a: seq<Row>, b: seq<Row>, locked: set<nat>, skipped: set<nat>)
    ensures Pending(a + b, locked, skipped) == Pending(a, locked, skipped) + Pending(b, locked, skipped)
  {
    if a == [] {
      assert a + b == b;
    } else {
      hide Claimable;
      PendingOfParts(a[1..], b, locked, skipped);
      assert (a + b)[0] == a[0] && (a + b)[1..] == a[1..] + b;
      var head := if Claimable(a[0], locked, skipped) then [a[0]] else [];
      Regroup(head, Pending(a[1..], locked, skipped), Pending(b, locked, skipped));
    }
  }

  lemma Regroup(a: seq<Row>, b: seq<Row>, c: seq<Row>)
    ensures a + b + c == a + (b + c)
  {}

  lemma {:induction false} NothingPending(rows: seq<Row>, locked: set<nat>, skipped: set<nat>)
    requires forall i :: 0 <= i < |rows| ==> !Claimable(rows[i], locked, skipped)
    ensures Pending(rows, locked, skipped) == []
  {
    if rows != [] {
      NothingPending(rows[1..], locked, skipped);
    }
  }

  /** Skipping an id that none of the rows has changes nothing. */
  lemma {:induction false} PendingUnaffected(rows: seq<Row>, locked: set<nat>, skipped: set<nat>, id: nat)
    requires forall i :: 0 <= i < |rows| ==> rows[i].id != id
    ensures Pending(rows, locked, skipped) == Pending(rows, locked, skipped + {id})
  {
    if rows != [] {
      PendingUnaffected(rows[1..], locked, skipped, id);
    }
  }

  class OutboxTable {
    /** In `created_at` order. */
    var rows: seq<Row>

    constructor (rows: seq<Row>)
      ensures this.rows == rows
    {
      this.rows := rows;
    }

    /** The claim: the oldest row that is pending, not locked by another transaction and not yet failed. */
    method Claim(locked: set<nat>, failed: set<nat>) returns (k: nat)
      ensures k <= |rows|
      ensures k == |rows| ==> Pending(rows, locked, failed) == []
      ensures k < |rows| ==> Claimable(rows[k], locked, failed)
      ensures forall i :: 0 <= i < k ==> !Claimable(rows[i], locked, failed)
      ensures k < |rows| ==> Pending(rows, locked, failed) == [rows[k]] + Pending(rows[k + 1..], locked, failed)
    {
      k := 0;
      while k < |rows| && !Claimable(rows[k], locked, failed)
        invariant k <= |rows|
        invariant forall i :: 0 <= i < k ==> !Claimable(rows[i], locked, failed)
      {
        k := k + 1;
      }
      NothingPending(rows[..k], locked, failed);
      PendingOfParts(rows[..k], rows[k..], locked, failed);
      assert rows[..k] + rows[k..] == rows;
    }

    /** One transaction: claim a row, publish or cancel it, stamp it. */
    method RelayOne(xadd: nat -> Xadd, locked: set<nat>, failed: set<nat>) returns (step: Step, ghost k: nat)
      requires DistinctIds(rows)
      modifies this
      ensures DistinctIds(rows) && |rows| == |old(rows)|
      ensures step.Drained? ==> rows == old(rows) && Pending(old(rows), locked, failed) == []
      ensures !step.Drained? ==>
                && k < |rows| && rows == old(rows)[k := Settled(old(rows)[k], xadd)]
                && Claimable(old(rows)[k], locked, failed)
                && var skipped := if step.StepFailed? then failed + {step.id} else failed;
                   Pending(old(rows), locked, failed) == [old(rows)[k]] + Pending(rows, locked, skipped)
      ensures step.StepFailed? <==> !step.Drained? && Fails(old(rows)[k], xadd)
      ensures step.StepFailed? ==> step.id == old(rows)[k].id && PublishRow(old(rows)[k], xadd) == NotPublished(step.error)
      ensures step.StepRelayed? <==> !step.Drained? && Publishes(old(rows)[k], xadd)
    {
      var n := Claim(locked, failed);
      k := n;
      if n == |rows| {
        return Drained, k;
      }
      var row := rows[n];
      PendingAfter(rows, locked, failed, n, Settled(row, xadd));
      if row.serverDeleted {
        rows := rows[n := row.(relayed := true, applied := true, outcome := Some(ServerRemoved), lastError := None)];
        return StepCancelled, k;
      }
      var published := PublishRow(row, xadd);
      if published.NotPublished? {
        assert rows == rows[n := row];
        return StepFailed(row.id, published.error), k;
      }
      rows := rows[n := row.(relayed := true, streamId := Some(published.stream))];
      step := StepRelayed;
    }

    /**
      Tries pending rows oldest first, each at most once, until the queue is drained or `limit`
      failures in a row; the rows tried are the first ones of the queue, and nothing else changes.
     */
    method Relay(xadd: nat -> Xadd, locked: set<nat>, limit: nat) returns (r: Result, ghost tried: seq<Row>)
      requires DistinctIds(rows)
      modifies this
      ensures tried <= Pending(old(rows), locked, {}) && DistinctIds(tried)
      ensures |rows| == |old(rows)|
      ensures forall i :: 0 <= i < |rows| ==>
                rows[i] == if Tried(old(rows)[i], tried) then Settled(old(rows)[i], xadd) else old(rows)[i]
      ensures FailureStreak(tried, xadd) >= limit || tried == Pending(old(rows), locked, {})
      ensures forall n :: 0 <= n < |tried| ==> FailureStreak(tried[..n], xadd) < limit
      ensures r == match FirstFailure(tried, xadd)
                   case Some(e) => Thrown(e)
                   case None => Relayed(PublishedCount(tried, xadd))
    {
      hide Pending, Claimable, Settled, PublishRow, Progress, DistinctIds, Fails, Publishes, Tally;
      var failed: set<nat> := {};
      var firstFailure: Option<Error> := None;
      var consecutiveFailures := 0;
      var relayed := 0;
      tried := [];
      ghost var queue := Pending(rows, locked, {});
      PendingOnce(rows, locked, {});
      ProgressStarts(rows, xadd, locked);
      TallyStarts(xadd, limit);
      while consecutiveFailures < limit
        invariant DistinctIds(rows) && Progress(old(rows), rows, tried, xadd, locked, failed)
        invariant queue == tried + Pending(rows, locked, failed)
        invariant Tally(tried, xadd, limit, consecutiveFailures, firstFailure, relayed)
        decreases |queue| - |tried|
      {
        ghost var before, skipped := rows, failed;
        var step, k := RelayOne(xadd, locked, failed);
        if step.Drained? {
          break;
        }
        ghost var row := before[k];
        TallyKept(tried, xadd, limit, consecutiveFailures, firstFailure, relayed, row);
        if step.StepFailed? {
          failed := failed + {step.id};
          firstFailure := if firstFailure.Some? then firstFailure else Some(step.error);
          consecutiveFailures := consecutiveFailures + 1;
        } else {
          consecutiveFailures := 0;
          if step.StepRelayed? {
            relayed := relayed + 1;
          }
        }
        ProgressKept(old(rows), before, tried, xadd, locked, skipped, k, failed);
        tried := tried + [row];
      }
      ProgressMeans(old(rows), rows, tried, xadd, locked, failed, queue);
      TallyMeans(tried, xadd, limit, consecutiveFailures, firstFailure, relayed);
      r := if firstFailure.Some? then Thrown(firstFailure.value) else Relayed(relayed);
    }
  }

  /** The loop's counters after `tried`, none of whose proper prefixes reached the failure limit. */
  ghost predicate Tally(tried: seq<Row>, xadd: nat -> Xadd, limit: nat, streak: nat, first: Option<Error>, count: nat) {
    && streak == FailureStreak(tried, xadd) && first == FirstFailure(tried, xadd) && count == PublishedCount(tried, xadd)
    && forall n :: 0 <= n < |tried| ==> FailureStreak(tried[..n], xadd) < limit
  }

  lemma TallyStarts(xadd: nat -> Xadd, limit: nat)
    ensures Tally([], xadd, limit, 0, None, 0)
  {}

  lemma TallyKept(tried: seq<Row>, xadd: nat -> Xadd, limit: nat, streak: nat, first: Option<Error>, count: nat, row: Row)
    requires Tally(tried, xadd, limit, streak, first, count) && streak < limit
    ensures Fails(row, xadd) ==> !Publishes(row, xadd) && PublishRow(row, xadd).NotPublished?
    ensures Fails(row, xadd) ==>
              Tally(tried + [row], xadd, limit, streak + 1, if first.Some? then first else Some(PublishRow(row, xadd).error), count)
    ensures !Fails(row, xadd) ==> Tally(tried + [row], xadd, limit, 0, first, if Publishes(row, xadd) then count + 1 else count)
  {
    var tried' := tried + [row];
    assert tried'[..|tried|] == tried && tried'[|tried|] == row;
    forall n | 0 <= n < |tried'|
      ensures FailureStreak(tried'[..n], xadd) < limit
    {
      assert tried'[..n] == tried[..n];
      if n == |tried| { assert tried[..n] == tried; }
    }
  }

  lemma TallyMeans(tried: seq<Row>, xadd: nat -> Xadd, limit: nat, streak: nat, first: Option<Error>, count: nat)
    requires Tally(tried, xadd, limit, streak, first, count)
    ensures streak == FailureStreak(tried, xadd) && first == FirstFailure(tried, xadd) && count == PublishedCount(tried, xadd)
    ensures forall n :: 0 <= n < |tried| ==> FailureStreak(tried[..n], xadd) < limit
  {}

  lemma ProgressStarts(rows: seq<Row>, xadd: nat -> Xadd, locked: set<nat>)
    requires DistinctIds(rows)
    ensures Progress(rows, rows, [], xadd, locked, {})
  {}

  lemma ProgressMeans(start: seq<Row>, rows: seq<Row>, tried: seq<Row>, xadd: nat -> Xadd, locked: set<nat>, failed: set<nat>, queue: seq<Row>)
    requires Progress(start, rows, tried, xadd, locked, failed) && tried <= queue && DistinctIds(queue)
    ensures DistinctIds(tried) && |rows| == |start|
    ensures forall i :: 0 <= i < |rows| ==> rows[i] == if Tried(start[i], tried) then Settled(start[i], xadd) else start[i]
  {}

  /** The table part way through a run: the rows tried are settled and will not be claimed again. */
  ghost predicate Progress(start: seq<Row>, rows: seq<Row>, tried: seq<Row>, xadd: nat -> Xadd, locked: set<nat>, failed: set<nat>) {
    && |rows| == |start| && DistinctIds(start)
    && forall i :: 0 <= i < |rows| ==>
         if Tried(start[i], tried) then rows[i] == Settled(start[i], xadd) && !Claimable(rows[i], locked, failed)
         else rows[i] == start[i]
  }

  lemma ProgressKept(start: seq<Row>, rows: seq<Row>, tried: seq<Row>, xadd: nat -> Xadd, locked: set<nat>, failed: set<nat>, k: nat, failed': set<nat>)
    requires Progress(start, rows, tried, xadd, locked, failed) && k < |rows| && Claimable(rows[k], locked, failed)
    requires failed' == if Fails(rows[k], xadd) then failed + {rows[k].id} else failed
    ensures rows[k] == start[k]
    ensures Progress(start, rows[k := Settled(rows[k], xadd)], tried + [rows[k]], xadd, locked, failed')
  {
    var tried' := tried + [rows[k]];
    assert tried'[|tried|] == rows[k];
    forall i | 0 <= i < |rows|
      ensures Tried(start[i], tried') <==> Tried(start[i], tried) || i == k
    {
      if Tried(start[i], tried) {
        var n :| 0 <= n < |tried| && tried[n].id == start[i].id;
        assert tried'[n].id == start[i].id;
      }
    }
  }

  lemma PendingAfter(rows: seq<Row>, locked: set<nat>, failed: set<nat>, k: nat, row: Row)
    requires DistinctIds(rows) && k < |rows| && row.id == rows[k].id
    requires Pending(rows, locked, failed) == [rows[k]] + Pending(rows[k + 1..], locked, failed)
    requires forall i :: 0 <= i < k ==> !Claimable(rows[i], locked, failed)
    ensures row.relayed ==> Pending(rows, locked, failed) == [rows[k]] + Pending(rows[k := row], locked, failed)
    ensures Pending(rows, locked, failed) == [rows[k]] + Pending(rows, locked, failed + {row.id})
  {
    hide Pending;
    NothingPending(rows[..k + 1], locked, failed + {row.id});
    PendingUnaffected(rows[k + 1..], locked, failed, row.id);
    PendingBehind(rows, locked, failed + {row.id}, k);
    if row.relayed {
      var after := rows[k := row];
      NothingPending(after[..k + 1], locked, failed);
      PendingBehind(after, locked, failed, k);
      assert after[k + 1..] == rows[k + 1..];
    }
  }

  lemma PendingBehind(rows: seq<Row>, locked: set<nat>, skipped: set<nat>, k: nat)
    requires k < |rows| && Pending(rows[..k + 1], locked, skipped) == []
    ensures Pending(rows, locked, skipped) == Pending(rows[k + 1..], locked, skipped)
  {
    hide Pending;
    assert rows[..k + 1] + rows[k + 1..] == rows;
    PendingOfParts(rows[..k + 1], rows[k + 1..], locked, skipped);
  }
}
