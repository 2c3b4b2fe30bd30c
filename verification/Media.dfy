/**
  Media uploads and soft-deletes that share files between rows (apps/api/src/lib/media-files.ts).
  Transactions run step by step and interleave freely; only the advisory lock on a storage path and
  the visibility of committed rows order them.
 */
module Media {

  import opened Wrappers

  type Path = nat
  type Hash = nat
  type RowId = nat
  type CallId = nat

  datatype Row = Row(path: Option<Path>, sha: Hash, active: bool)

  /** One call in flight, by what it does next. */
  datatype Call =
    | Stored(own: Path, sha: Hash)
    | Selected(own: Path, sha: Hash, candidate: Path)
    | Locked(own: Path, sha: Hash, candidate: Path)
    | Ready(own: Path, sha: Hash, dedup: Option<Path>)
    | Discarding(own: Path)
    | Deleting(row: RowId, at: Option<Path>)
    | Checking(row: RowId, at: Option<Path>)
    | Decided(row: RowId, freed: Path, releasable: bool)
    | Removing(freed: Path)

  datatype State = State(
    rows: map<RowId, Row>,
    disk: set<Path>,
    locks: map<Path, CallId>,
    calls: map<CallId, Call>,
    used: set<Path>,     // every path ever handed to an upload
    left: set<Path>)     // files a crash, or the lost reply of a delete, left behind

  datatype Action =
    | Upload(id: CallId, own: Path, sha: Hash)
    | Select(id: CallId, candidate: Option<Path>)
    | Delete(id: CallId, row: RowId)
    | Lock(id: CallId)
    | Recheck(id: CallId)
    | Commit(id: CallId, newRow: RowId)
    | Fail(id: CallId)
    | Remove(id: CallId)
    | Crash(id: CallId)
    | LoseReply(id: CallId, newRow: RowId)   // the commit lands, but is reported as a failure

  predicate On(row: Row, p: Path) { row.active && row.path == Some(p) }

  ghost predicate InUse(rows: map<RowId, Row>, p: Path) { exists r :: r in rows && On(rows[r], p) }

  ghost predicate InUseExcept(rows: map<RowId, Row>, p: Path, except: RowId) {
    exists r :: r in rows && r != except && On(rows[r], p)
  }

  predicate Uploading(t: Call) { t.Stored? || t.Selected? || t.Locked? || t.Ready? }

  /** The transaction has done its work and commits. */
  predicate Committing(t: Call) { t.Ready? || t.Decided? || (t.Checking? && t.at.None?) }

  function PathOf(t: Call): Path
    requires t.Ready?
  {
    if t.dedup.Some? then t.dedup.value else t.own
  }

  ghost predicate Enabled(s: State, a: Action) {
    match a
    case Upload(id, own, _) => id !in s.calls && own !in s.used
    case Delete(id, row) => id !in s.calls && row in s.rows
    case Select(id, candidate) =>
      && id in s.calls && s.calls[id].Stored?
      && (candidate.Some? ==> exists r :: r in s.rows && On(s.rows[r], candidate.value) && s.rows[r].sha == s.calls[id].sha)
      && (candidate.None? ==> forall r, p :: r in s.rows && On(s.rows[r], p) ==> s.rows[r].sha != s.calls[id].sha)
    case Lock(id) =>
      && id in s.calls
      && (s.calls[id].Selected? || s.calls[id].Deleting?)
      && (s.calls[id].Selected? ==> s.calls[id].candidate !in s.locks)
      && (s.calls[id].Deleting? && s.calls[id].at.Some? ==> s.calls[id].at.value !in s.locks)
    case Recheck(id) => id in s.calls && (s.calls[id].Locked? || (s.calls[id].Checking? && s.calls[id].at.Some?))
    case Commit(id, newRow) => id in s.calls && newRow !in s.rows && Committing(s.calls[id])
    case LoseReply(id, newRow) => id in s.calls && newRow !in s.rows && Committing(s.calls[id])
    case Fail(id) => id in s.calls && !s.calls[id].Discarding? && !s.calls[id].Removing?
    case Remove(id) => id in s.calls && (s.calls[id].Discarding? || s.calls[id].Removing?)
    case Crash(id) => id in s.calls
  }

  /** The call after its step, if it is not over. */
  ghost function Next(s: State, a: Action): Option<Call>
    requires Enabled(s, a)
  {
    match a
    case Upload(_, own, sha) => Some(Stored(own, sha))
    case Delete(_, row) => Some(Deleting(row, s.rows[row].path))
    case Select(id, candidate) =>
      var t := s.calls[id];
      if candidate.Some? then Some(Selected(t.own, t.sha, candidate.value)) else Some(Ready(t.own, t.sha, None))
    case Lock(id) =>
      var t := s.calls[id];
      if t.Selected? then Some(Locked(t.own, t.sha, t.candidate)) else Some(Checking(t.row, t.at))
    case Recheck(id) =>
      var t := s.calls[id];
      if t.Locked? then Some(Ready(t.own, t.sha, if InUse(s.rows, t.candidate) then Some(t.candidate) else None))
      else Some(Decided(t.row, t.at.value, !InUseExcept(s.rows, t.at.value, t.row)))
    case Commit(id, _) =>
      var t := s.calls[id];
      if t.Ready? && t.dedup.Some? then Some(Discarding(t.own))
      else if t.Decided? && t.releasable then Some(Removing(t.freed))
      else None
    case LoseReply(id, _) => if s.calls[id].Ready? then Some(Discarding(s.calls[id].own)) else None
    case Fail(id) => if Uploading(s.calls[id]) then Some(Discarding(s.calls[id].own)) else None
    case Remove(_) => None
    case Crash(_) => None
  }

  function RowsAfter(s: State, a: Action): map<RowId, Row> {
    if (a.Commit? || a.LoseReply?) && a.id in s.calls then
      var t := s.calls[a.id];
      if t.Ready? then s.rows[a.newRow := Row(Some(PathOf(t)), t.sha, true)]
      else if (t.Decided? || t.Checking?) && t.row in s.rows then s.rows[t.row := s.rows[t.row].(active := false)]
      else s.rows
    else s.rows
  }

  function DiskAfter(s: State, a: Action): set<Path> {
    if a.Upload? then s.disk + {a.own}
    else if a.Remove? && a.id in s.calls && s.calls[a.id].Discarding? then s.disk - {s.calls[a.id].own}
    else if a.Remove? && a.id in s.calls && s.calls[a.id].Removing? then s.disk - {s.calls[a.id].freed}
    else s.disk
  }

  /** Locks end with their transaction. */
  function LocksAfter(s: State, a: Action): map<Path, CallId> {
    if a.Lock? && a.id in s.calls && s.calls[a.id].Selected? then s.locks[s.calls[a.id].candidate := a.id]
    else if a.Lock? && a.id in s.calls && s.calls[a.id].Deleting? && s.calls[a.id].at.Some? then s.locks[s.calls[a.id].at.value := a.id]
    else if a.Commit? || a.LoseReply? || a.Fail? || a.Crash? then map p | p in s.locks && s.locks[p] != a.id :: s.locks[p]
    else s.locks
  }

  function LeftAfter(s: State, a: Action): set<Path> {
    if a.Crash? && a.id in s.calls && (Uploading(s.calls[a.id]) || s.calls[a.id].Discarding?) then s.left + {s.calls[a.id].own}
    else if a.Crash? && a.id in s.calls && s.calls[a.id].Removing? then s.left + {s.calls[a.id].freed}
    else if a.LoseReply? && a.id in s.calls && s.calls[a.id].Decided? && s.calls[a.id].releasable then s.left + {s.calls[a.id].freed}
    else s.left
  }

  ghost function CallsAfter(s: State, a: Action): map<CallId, Call>
    requires Enabled(s, a)
  {
    match Next(s, a)
    case Some(t) => s.calls[a.id := t]
    case None => s.calls - {a.id}
  }

  ghost function Step(s: State, a: Action): State
    requires Enabled(s, a)
  {
    State(RowsAfter(s, a), DiskAfter(s, a), LocksAfter(s, a), CallsAfter(s, a),
          if a.Upload? then s.used + {a.own} else s.used, LeftAfter(s, a))
  }

  // ----- the invariant

  /** What the whole thing is for: an active row's file is there. */
  ghost predicate FilesPresent(rows: map<RowId, Row>, disk: set<Path>) {
    forall r :: r in rows && rows[r].active && rows[r].path.Some? ==> rows[r].path.value in disk
  }

  ghost predicate RowPath(rows: map<RowId, Row>, p: Path) { exists r :: r in rows && rows[r].path == Some(p) }

  ghost predicate RowsUsed(s: State) { forall r :: r in s.rows && s.rows[r].path.Some? ==> s.rows[r].path.value in s.used }

  predicate Owns(t: Call, p: Path) { (Uploading(t) || t.Discarding?) && t.own == p }

  /** An upload's own file is on disk until it is kept or discarded, and nobody else knows of it. */
  ghost predicate OwnFiles(s: State) {
    && (forall i :: i in s.calls && Uploading(s.calls[i]) ==> s.calls[i].own in s.disk && !RowPath(s.rows, s.calls[i].own))
    && (forall i, p :: i in s.calls && Owns(s.calls[i], p) ==> p in s.used)
  }

  ghost predicate OwnersDiffer(calls: map<CallId, Call>) {
    forall i, j, p :: i in calls && j in calls && Owns(calls[i], p) && Owns(calls[j], p) ==> i == j
  }

  predicate Wants(t: Call, p: Path) {
    || ((t.Selected? || t.Locked?) && t.candidate == p)
    || (t.Ready? && t.dedup == Some(p))
    || ((t.Deleting? || t.Checking?) && t.at == Some(p))
    || ((t.Decided? || t.Removing?) && t.freed == p)
  }

  ghost predicate WantedAreRowPaths(s: State) {
    forall i, p :: i in s.calls && Wants(s.calls[i], p) ==> RowPath(s.rows, p)
  }

  predicate Holds(t: Call, p: Path) {
    (t.Locked? && t.candidate == p) || (t.Ready? && t.dedup == Some(p)) || (t.Checking? && t.at == Some(p)) || (t.Decided? && t.freed == p)
  }

  ghost predicate LocksHeld(s: State) {
    forall i, p :: i in s.calls && Holds(s.calls[i], p) ==> p in s.locks && s.locks[p] == i
  }

  /** The call has taken its lock, if it takes one, and its transaction is not over. */
  predicate Inside(t: Call) { t.Locked? || t.Ready? || t.Checking? || t.Decided? }

  /** Nobody else has a lock: it is given back when its transaction is over. */
  ghost predicate LocksOwned(s: State) { forall p :: p in s.locks ==> s.locks[p] in s.calls && Inside(s.calls[s.locks[p]]) }

  ghost predicate CallRows(s: State) {
    forall i :: i in s.calls ==>
      && ((s.calls[i].Deleting? || s.calls[i].Checking?) ==> s.calls[i].row in s.rows && s.rows[s.calls[i].row].path == s.calls[i].at)
      && (s.calls[i].Decided? ==> s.calls[i].row in s.rows && s.rows[s.calls[i].row].path == Some(s.calls[i].freed))
  }

  ghost predicate Right(rows: map<RowId, Row>, t: Call) {
    && (t.Ready? && t.dedup.Some? ==> InUse(rows, t.dedup.value))
    && (t.Decided? ==> (t.releasable <==> !InUseExcept(rows, t.freed, t.row)))
    && (t.Removing? ==> !InUse(rows, t.freed))
  }

  /** What a transaction found out under its lock stays true until it commits, and a freed path stays free. */
  ghost predicate DecisionsRight(s: State) { forall i :: i in s.calls ==> Right(s.rows, s.calls[i]) }

  /** No file without a reason. */
  ghost predicate Accounted(s: State, p: Path) {
    p in s.disk ==> InUse(s.rows, p) || p in s.left || exists i :: Reason(s, i, p)
  }

  /** The call is why the file is there: it owns it, or is about to remove it. */
  predicate Reason(s: State, i: CallId, p: Path) { i in s.calls && (Owns(s.calls[i], p) || s.calls[i] == Removing(p)) }

  /** Holds in every run, whatever is lost or crashes. */
  ghost predicate Inv(s: State) {
    && RowsUsed(s) && OwnFiles(s) && OwnersDiffer(s.calls) && WantedAreRowPaths(s)
    && LocksHeld(s) && LocksOwned(s) && CallRows(s) && DecisionsRight(s)
  }

  // What is about one path.

  /** The file of an active row is there, and no call is about to discard the file of a row. */
  ghost predicate FileSafe(s: State, p: Path) {
    && (InUse(s.rows, p) ==> p in s.disk)
    && (forall i :: i in s.calls && s.calls[i] == Discarding(p) ==> !RowPath(s.rows, p))
  }

  /** The step is not the lost reply of a commit that made the path a row's. */
  predicate Honest(s: State, a: Action, p: Path) {
    a.LoseReply? && a.id in s.calls && s.calls[a.id].Ready? ==> !(s.calls[a.id].dedup.None? && s.calls[a.id].own == p)
  }

  /** The step is not the crash of a call that is why the path's file is there, nor the lost reply of the delete that frees it. */
  predicate Spares(s: State, a: Action, p: Path) {
    && (a.Crash? ==> !Reason(s, a.id, p))
    && (a.LoseReply? && a.id in s.calls && s.calls[a.id].Decided? ==> !(s.calls[a.id].releasable && s.calls[a.id].freed == p))
  }

  // ----- how rows and their paths change

  lemma RowPathsAfter(s: State, a: Action)
    requires Enabled(s, a) && CallRows(s)
    ensures forall p :: RowPath(s.rows, p) ==> RowPath(RowsAfter(s, a), p)
    ensures forall p :: RowPath(RowsAfter(s, a), p) && !RowPath(s.rows, p) ==>
              (a.Commit? || a.LoseReply?) && s.calls[a.id].Ready? && p == PathOf(s.calls[a.id])
  {
    var rows := RowsAfter(s, a);
    forall r | r in s.rows
      ensures r in rows && rows[r].path == s.rows[r].path
    {}
    forall p: Path | RowPath(s.rows, p)
      ensures RowPath(rows, p)
    {
      var r :| r in s.rows && s.rows[r].path == Some(p);
      assert rows[r].path == Some(p);
    }
  }

  lemma RowsUsedKept(s: State, a: Action)
    requires Enabled(s, a) && RowsUsed(s) && OwnFiles(s) && WantedAreRowPaths(s)
    ensures RowsUsed(Step(s, a))
  {
    hide Next;
    if (a.Commit? || a.LoseReply?) && s.calls[a.id].Ready? {
      var t := s.calls[a.id];
      assert Owns(t, t.own);
      if t.dedup.Some? {
        assert Wants(s.calls[a.id], t.dedup.value);
        assert RowPath(s.rows, t.dedup.value);
        var r :| r in s.rows && s.rows[r].path == Some(t.dedup.value);
      }
    }
  }

  lemma OwnersDifferKept(s: State, a: Action)
    requires Enabled(s, a) && OwnFiles(s) && OwnersDiffer(s.calls)
    ensures OwnersDiffer(Step(s, a).calls)
  {
    hide InUse, InUseExcept, RowPath;
    var calls := Step(s, a).calls;
    forall i, p | i in calls && Owns(calls[i], p) && !a.Upload?
      ensures i in s.calls && Owns(s.calls[i], p)
    {}
  }

  lemma OwnFilesKept(s: State, a: Action)
    requires Enabled(s, a) && OwnFiles(s) && OwnersDiffer(s.calls) && WantedAreRowPaths(s) && CallRows(s) && RowsUsed(s)
    ensures OwnFiles(Step(s, a))
  {
    OwnersUsed(s, a);
    var t := Step(s, a);
    forall i | i in t.calls && Uploading(t.calls[i])
      ensures t.calls[i].own in t.disk && !RowPath(t.rows, t.calls[i].own)
    {
      OwnFileKept(s, a, i);
    }
    hide Step, Enabled;
  }

  lemma OwnersUsed(s: State, a: Action)
    requires Enabled(s, a) && OwnFiles(s)
    ensures forall i, p :: i in Step(s, a).calls && Owns(Step(s, a).calls[i], p) ==> p in Step(s, a).used
  {
    hide InUse, InUseExcept, RowPath, RowsAfter, DiskAfter, LocksAfter;
    var t := Step(s, a);
    forall i, p | i in t.calls && Owns(t.calls[i], p)
      ensures p in t.used
    {
      assert (a.Upload? && i == a.id) || (i in s.calls && Owns(s.calls[i], p));
    }
  }

  lemma OwnFileKept(s: State, a: Action, i: CallId)
    requires Enabled(s, a) && OwnFiles(s) && OwnersDiffer(s.calls) && WantedAreRowPaths(s) && CallRows(s) && RowsUsed(s)
    requires i in Step(s, a).calls && Uploading(Step(s, a).calls[i])
    ensures Step(s, a).calls[i].own in Step(s, a).disk && !RowPath(Step(s, a).rows, Step(s, a).calls[i].own)
  {
    hide InUse, InUseExcept, LocksAfter;
    var t := Step(s, a);
    var p := t.calls[i].own;
    RowPathsAfter(s, a);
    if a.Upload? && i == a.id {
      assert !RowPath(s.rows, p);
    } else {
      assert i in s.calls && Uploading(s.calls[i]) && s.calls[i].own == p;
      hide RowPath, RowsAfter;
      assert Owns(s.calls[i], p);
      if a.Remove? && s.calls[a.id].Removing? {
        assert Wants(s.calls[a.id], s.calls[a.id].freed);
      }
      if (a.Commit? || a.LoseReply?) && s.calls[a.id].Ready? {
        assert Owns(s.calls[a.id], s.calls[a.id].own);
        assert s.calls[a.id].dedup.Some? ==> Wants(s.calls[a.id], s.calls[a.id].dedup.value);
      }
    }
  }

  lemma WantedKept(s: State, a: Action)
    requires Enabled(s, a) && WantedAreRowPaths(s) && CallRows(s)
    ensures WantedAreRowPaths(Step(s, a))
  {
    hide InUse, InUseExcept;
    var t := Step(s, a);
    RowPathsAfter(s, a);
    forall i, p | i in t.calls && Wants(t.calls[i], p)
      ensures RowPath(t.rows, p)
    {
      if !(i in s.calls && Wants(s.calls[i], p)) {
        assert a.id == i && (a.Select? || a.Delete?);
      }
    }
  }

  lemma LocksKept(s: State, a: Action)
    requires Enabled(s, a) && LocksHeld(s)
    ensures LocksHeld(Step(s, a))
  {
    hide InUse, InUseExcept;
    var t := Step(s, a);
    forall i, p | i in t.calls && Holds(t.calls[i], p)
      ensures p in t.locks && t.locks[p] == i
    {
      if i != a.id {
        assert Holds(s.calls[i], p);
      }
    }
  }

  lemma LocksOwnedKept(s: State, a: Action)
    requires Enabled(s, a) && LocksOwned(s)
    ensures LocksOwned(Step(s, a))
  {
    hide InUse, InUseExcept, RowsAfter, DiskAfter, LeftAfter;
    var t := Step(s, a);
    forall p | p in t.locks
      ensures t.locks[p] in t.calls && Inside(t.calls[t.locks[p]])
    {}
  }

  lemma CallRowsKept(s: State, a: Action)
    requires Enabled(s, a) && CallRows(s)
    ensures CallRows(Step(s, a))
  {
    hide InUse, InUseExcept;
    var t := Step(s, a);
    forall r | r in s.rows
      ensures r in t.rows && t.rows[r].path == s.rows[r].path
    {}
  }

  /** Only the holder of a path's lock changes which rows use it; a path nobody used before is the exception. */
  lemma UseChangesUnderLock(s: State, a: Action, r: RowId, p: Path)
    requires Enabled(s, a) && CallRows(s)
    ensures (r in s.rows && On(s.rows[r], p)) != (r in RowsAfter(s, a) && On(RowsAfter(s, a)[r], p)) ==>
              && (a.Commit? || a.LoseReply?)
              && var t := s.calls[a.id];
                 || (t.Ready? && r == a.newRow && (Holds(t, p) || Owns(t, p)))
                 || (t.Decided? && t.freed == p && r == t.row && Holds(t, p))
  {}

  lemma OneHolder(s: State, i: CallId, j: CallId, p: Path)
    requires LocksHeld(s) && i in s.calls && j in s.calls && i != j
    ensures !Holds(s.calls[i], p) || !Holds(s.calls[j], p)
  {
    hide Holds;
    assert Holds(s.calls[i], p) ==> p in s.locks && s.locks[p] == i;
    assert Holds(s.calls[j], p) ==> p in s.locks && s.locks[p] == j;
  }

  lemma DecisionKept(s: State, a: Action, i: CallId)
    requires Inv(s) && Enabled(s, a) && i in s.calls && i != a.id
    ensures Right(RowsAfter(s, a), s.calls[i])
  {
    var t, rows := s.calls[i], RowsAfter(s, a);
    assert Right(s.rows, t);
    if (t.Ready? && t.dedup.Some?) || t.Decided? || t.Removing? {
      var p := if t.Ready? then t.dedup.value else t.freed;
      assert Wants(t, p) && RowPath(s.rows, p);
      assert !t.Removing? ==> Holds(t, p);
      forall r
        ensures (t.Removing? || (r in s.rows && On(s.rows[r], p)) == (r in rows && On(rows[r], p)))
        ensures t.Removing? && r in rows && On(rows[r], p) ==> r in s.rows && On(s.rows[r], p)
      {
        UseChangesUnderLock(s, a, r, p);
        if a.Commit? || a.LoseReply? {
          var u := s.calls[a.id];
          OneHolder(s, i, a.id, p);
          assert u.Ready? ==> !Owns(u, p);
          assert Right(s.rows, u);
        }
      }
      SameUse(s.rows, rows, t, p);
    }
  }

  lemma SameUse(before: map<RowId, Row>, after: map<RowId, Row>, t: Call, p: Path)
    requires Right(before, t) && (t.Ready? ==> t.dedup == Some(p)) && (t.Decided? || t.Removing? ==> t.freed == p)
    requires forall r :: (t.Removing? || (r in before && On(before[r], p)) == (r in after && On(after[r], p)))
    requires forall r :: t.Removing? && r in after && On(after[r], p) ==> r in before && On(before[r], p)
    ensures Right(after, t)
  {
    if t.Ready? && t.dedup.Some? {
      var r :| r in before && On(before[r], p);
      assert On(after[r], p);
    }
    if t.Decided? {
      if t.releasable {
        assert !InUseExcept(after, p, t.row);
      } else {
        var r :| r in before && r != t.row && On(before[r], p);
        assert On(after[r], p);
      }
    }
  }

  /** The acting call's own conclusion. */
  lemma DecisionMade(s: State, a: Action)
    requires Inv(s) && Enabled(s, a) && Next(s, a).Some?
    ensures Right(RowsAfter(s, a), Next(s, a).value)
  {
    var n := Next(s, a).value;
    if n.Removing? {
      var t := s.calls[a.id];
      assert Right(s.rows, t);
      forall r | r in RowsAfter(s, a)
        ensures !On(RowsAfter(s, a)[r], n.freed)
      {}
    }
  }

  lemma DecisionsKept(s: State, a: Action)
    requires Inv(s) && Enabled(s, a)
    ensures DecisionsRight(Step(s, a))
  {
    hide Inv, Enabled, Right, RowsAfter;
    var t := Step(s, a);
    forall i | i in t.calls
      ensures Right(t.rows, t.calls[i])
    {
      if i == a.id {
        DecisionMade(s, a);
      } else {
        DecisionKept(s, a, i);
      }
    }
  }

  /** The file of an active row is never the one being removed. */
  lemma FileSafeKept(s: State, a: Action, p: Path)
    requires Inv(s) && FileSafe(s, p) && Enabled(s, a) && Honest(s, a, p)
    ensures FileSafe(Step(s, a), p)
  {
    FilePresentKept(s, a, p);
    NoneDiscardsKept(s, a, p);
    hide Step, Enabled, Inv, Honest;
  }

  lemma FilePresentKept(s: State, a: Action, p: Path)
    requires Inv(s) && FileSafe(s, p) && Enabled(s, a)
    ensures InUse(Step(s, a).rows, p) ==> p in Step(s, a).disk
  {
    hide LocksAfter, LeftAfter, InUseExcept;
    var t := Step(s, a);
    if a.id in s.calls {
      assert Right(s.rows, s.calls[a.id]);
    }
    if InUse(t.rows, p) {
      var r :| r in t.rows && On(t.rows[r], p);
      UseChangesUnderLock(s, a, r, p);
      if !(r in s.rows && On(s.rows[r], p)) {
        assert p in s.disk;
      } else {
        assert RowPath(s.rows, p);
      }
    }
  }

  lemma NoneDiscardsKept(s: State, a: Action, p: Path)
    requires Inv(s) && FileSafe(s, p) && Enabled(s, a) && Honest(s, a, p)
    ensures forall i :: i in Step(s, a).calls && Step(s, a).calls[i] == Discarding(p) ==> !RowPath(Step(s, a).rows, p)
  {
    RowPathsAfter(s, a);
    hide LocksAfter, LeftAfter, DiskAfter, InUseExcept, RowPath, InUse, RowsAfter;
    var t := Step(s, a);
    forall i | i in t.calls && t.calls[i] == Discarding(p)
      ensures !RowPath(t.rows, p)
    {
      assert i in s.calls && Owns(s.calls[i], p);
      assert !RowPath(s.rows, p);
      if (a.Commit? || a.LoseReply?) && s.calls[a.id].Ready? {
        assert Owns(s.calls[a.id], s.calls[a.id].own);
        assert s.calls[a.id].dedup.Some? ==> Wants(s.calls[a.id], s.calls[a.id].dedup.value);
      }
    }
  }

  lemma AccountedKept(s: State, a: Action, p: Path)
    requires Inv(s) && Accounted(s, p) && Enabled(s, a)
    ensures Accounted(Step(s, a), p)
  {
    var t := Step(s, a);
    if p in t.disk {
      if p !in s.disk {
        assert Reason(t, a.id, p);
      } else if p in s.left {
        assert p in t.left;
      } else if InUse(s.rows, p) {
        var r :| r in s.rows && On(s.rows[r], p);
        if !(r in t.rows && On(t.rows[r], p)) {
          UseChangesUnderLock(s, a, r, p);
          DecisionOutcome(s, a, p);
        }
      } else {
        var i :| Reason(s, i, p);
        ReasonAfter(s, a, i, p);
      }
    }
  }

  lemma ReasonAfter(s: State, a: Action, i: CallId, p: Path)
    requires Enabled(s, a) && Reason(s, i, p) && p in Step(s, a).disk
    ensures InUse(Step(s, a).rows, p) || p in Step(s, a).left || Reason(Step(s, a), i, p)
  {
    hide LocksAfter, InUseExcept;
    var t := Step(s, a);
    if i == a.id && a.Commit? && s.calls[a.id].Ready? && s.calls[a.id].dedup.None? {
      assert On(t.rows[a.newRow], p);
    }
  }

  /** A committed delete leaves another row on the path, or goes on to remove the file, unless its reply is lost. */
  lemma DecisionOutcome(s: State, a: Action, p: Path)
    requires Inv(s) && Enabled(s, a) && (a.Commit? || a.LoseReply?) && s.calls[a.id].Decided? && s.calls[a.id].freed == p
    ensures InUse(Step(s, a).rows, p) || (if a.Commit? then Reason(Step(s, a), a.id, p) else p in Step(s, a).left)
  {
    var t, call := Step(s, a), s.calls[a.id];
    assert Right(s.rows, call);
    if !call.releasable {
      var r :| r in s.rows && r != call.row && On(s.rows[r], p);
      assert On(t.rows[r], p);
    }
  }

  /** Every step keeps the invariant, lost replies and crashes included. */
  lemma InvKept(s: State, a: Action)
    requires Inv(s) && Enabled(s, a)
    ensures Inv(Step(s, a))
  {
    RowsUsedKept(s, a);
    OwnFilesKept(s, a);
    OwnersDifferKept(s, a);
    WantedKept(s, a);
    LocksKept(s, a);
    LocksOwnedKept(s, a);
    CallRowsKept(s, a);
    DecisionsKept(s, a);
    hide Step, Enabled, RowsUsed, OwnFiles, OwnersDiffer, WantedAreRowPaths, LocksHeld, LocksOwned, CallRows, DecisionsRight;
  }

  // ----- whole runs

  ghost predicate Runs(s: State, actions: seq<Action>, t: State)
    decreases |actions|
  {
    if actions == [] then s == t
    else Enabled(s, actions[0]) && Runs(Step(s, actions[0]), actions[1..], t)
  }

  /** Along the run, no commit that made the path a row's was reported as a failure. */
  ghost predicate HonestAbout(s: State, actions: seq<Action>, p: Path)
    decreases |actions|
  {
    actions != [] && Enabled(s, actions[0]) ==> Honest(s, actions[0], p) && HonestAbout(Step(s, actions[0]), actions[1..], p)
  }

  /** Along the run, no call that was why the path's file is there crashed, and no delete that freed it lost its reply. */
  ghost predicate SparedAlong(s: State, actions: seq<Action>, p: Path)
    decreases |actions|
  {
    actions != [] && Enabled(s, actions[0]) ==> Spares(s, actions[0], p) && SparedAlong(Step(s, actions[0]), actions[1..], p)
  }

  lemma {:induction false} SafeAlong(s: State, actions: seq<Action>, t: State, p: Path)
    requires Inv(s) && FileSafe(s, p) && Runs(s, actions, t) && HonestAbout(s, actions, p)
    ensures Inv(t) && FileSafe(t, p)
    decreases |actions|
  {
    hide Inv, Enabled, Step, FileSafe, Honest;
    if actions != [] {
      InvKept(s, actions[0]);
      FileSafeKept(s, actions[0], p);
      SafeAlong(Step(s, actions[0]), actions[1..], t, p);
    }
  }

  lemma {:induction false} AccountedAlong(s: State, actions: seq<Action>, t: State, p: Path)
    requires Inv(s) && Accounted(s, p) && Runs(s, actions, t)
    ensures Accounted(t, p)
    ensures SparedAlong(s, actions, p) && p !in s.left ==> p !in t.left
    decreases |actions|
  {
    hide Inv, Enabled, Step, Accounted, Spares;
    if actions != [] {
      InvKept(s, actions[0]);
      AccountedKept(s, actions[0], p);
      LeftOnlyWhenNotSpared(s, actions[0], p);
      AccountedAlong(Step(s, actions[0]), actions[1..], t, p);
    }
  }

  lemma LeftOnlyWhenNotSpared(s: State, a: Action, p: Path)
    requires Enabled(s, a)
    ensures p !in s.left && Spares(s, a, p) ==> p !in Step(s, a).left
  {
    hide RowsAfter, DiskAfter, LocksAfter;
  }

  /** Nothing is in flight. */
  ghost predicate AtRest(s: State) { s.calls == map[] && s.locks == map[] && RowsUsed(s) }

  /** The path has a file exactly when an active row uses it. */
  ghost predicate ExactAt(s: State, p: Path) { (p in s.disk <==> InUse(s.rows, p)) && p !in s.left }

  /**
    In every interleaving, crashes and lost replies about other files included: the file of an active
    row is on disk, unless the commit that first made the path a row's was reported as a failure.
   */
  lemma ActiveFilesAlwaysPresent(s: State, actions: seq<Action>, t: State, r: RowId, p: Path)
    requires AtRest(s) && ExactAt(s, p) && Runs(s, actions, t) && HonestAbout(s, actions, p)
    requires r in t.rows && On(t.rows[r], p)
    ensures p in t.disk
  {
    hide Runs, HonestAbout;
    SafeAlong(s, actions, t, p);
    assert InUse(t.rows, p);
  }

  /**
    And if besides no call that owned or was removing the file crashed and no delete that freed it
    lost its reply, then once no such call is in flight the file is there exactly when an active row
    uses it; so it is gone when all rows that shared it are deleted.  What other files and calls do
    does not matter.
   */
  lemma QuietPathIsExact(s: State, actions: seq<Action>, t: State, p: Path)
    requires AtRest(s) && ExactAt(s, p) && Runs(s, actions, t) && HonestAbout(s, actions, p) && SparedAlong(s, actions, p)
    requires forall i :: !Reason(t, i, p)
    ensures p in t.disk <==> InUse(t.rows, p)
  {
    hide Runs, HonestAbout, SparedAlong;
    SafeAlong(s, actions, t, p);
    AccountedAlong(s, actions, t, p);
  }

  /**
    A commit that is reported as a failure: an upload then removes its own file, a delete removes
    nothing.  That leaves an active row without its file exactly when it is an upload whose row was not
    deduplicated.
   */
  lemma LostReplyHarmlessIffDeduplicated(s: State, id: CallId, newRow: RowId)
    requires Inv(s) && FilesPresent(s.rows, s.disk) && Enabled(s, LoseReply(id, newRow))
    ensures s.calls[id].Ready? ==> Enabled(Step(s, LoseReply(id, newRow)), Remove(id))
    ensures
      var mid := Step(s, LoseReply(id, newRow));
      var t := if s.calls[id].Ready? then Step(mid, Remove(id)) else mid;
      FilesPresent(t.rows, t.disk) <==> !(s.calls[id].Ready? && s.calls[id].dedup.None?)
  {
    var call := s.calls[id];
    var mid := Step(s, LoseReply(id, newRow));
    if call.Ready? {
      var t := Step(mid, Remove(id));
      assert mid.calls[id] == Discarding(call.own);
      assert t.disk == s.disk - {call.own} && t.rows == s.rows[newRow := Row(Some(PathOf(call)), call.sha, true)];
      assert Owns(call, call.own) && !RowPath(s.rows, call.own);
      if call.dedup.Some? {
        assert Wants(call, call.dedup.value) && Right(s.rows, call);
      } else {
        assert t.rows[newRow].active && t.rows[newRow].path == Some(call.own);
      }
    }
  }

  /** A delete whose reply is lost leaves a file that no row uses exactly when it found no other row on it. */
  lemma LostReplyOfDeleteLeavesFile(s: State, id: CallId, newRow: RowId)
    requires Inv(s) && Enabled(s, LoseReply(id, newRow)) && s.calls[id].Decided? && s.calls[id].freed in s.disk
    ensures
      var t, p := Step(s, LoseReply(id, newRow)), s.calls[id].freed;
      && p in t.disk && id !in t.calls
      && (!InUse(t.rows, p) <==> s.calls[id].releasable)
  {
    var call, a := s.calls[id], LoseReply(id, newRow);
    assert Right(s.rows, call);
    if !call.releasable {
      DecisionOutcome(s, a, call.freed);
      var r :| r in s.rows && r != call.row && On(s.rows[r], call.freed);
      assert On(Step(s, a).rows[r], call.freed);
    }
  }

  // ----- a call that nothing disturbs

  lemma {:induction false} RunsOn(s: State, first: seq<Action>, t: State, second: seq<Action>, u: State)
    requires Runs(s, first, t) && Runs(t, second, u)
    ensures Runs(s, first + second, u)
    decreases |first|
  {
    hide Enabled, Step;
    if first == [] {
      assert first + second == second;
    } else {
      RunsOn(Step(s, first[0]), first[1..], t, second, u);
      assert (first + second)[1..] == first[1..] + second;
    }
  }

  lemma OneStep(s: State, a: Action, t: State)
    requires Enabled(s, a) && Step(s, a) == t
    ensures Runs(s, [a], t)
  {
    hide Enabled, Step;
    assert [a][1..] == [];
    assert Runs(t, [], t);
  }

  /** The state after a whole upload: its row, and its own file unless the row reuses another. */
  function Uploaded(s: State, own: Path, sha: Hash, newRow: RowId, dedup: Option<Path>): State {
    s.(rows := s.rows[newRow := Row(Some(if dedup.Some? then dedup.value else own), sha, true)],
       disk := if dedup.Some? then s.disk else s.disk + {own},
       used := s.used + {own})
  }

  lemma StoresAndSelects(s: State, id: CallId, own: Path, sha: Hash, candidate: Option<Path>)
    requires id !in s.calls && own !in s.used
    requires candidate.Some? ==> exists r :: r in s.rows && On(s.rows[r], candidate.value) && s.rows[r].sha == sha
    requires candidate.None? ==> forall r, p :: r in s.rows && On(s.rows[r], p) ==> s.rows[r].sha != sha
    ensures var next := if candidate.Some? then Selected(own, sha, candidate.value) else Ready(own, sha, None);
            Runs(s, [Upload(id, own, sha)] + [Select(id, candidate)],
                 s.(calls := s.calls[id := next], disk := s.disk + {own}, used := s.used + {own}))
  {
    hide InUse, InUseExcept;
    var next := if candidate.Some? then Selected(own, sha, candidate.value) else Ready(own, sha, None);
    var s1 := s.(calls := s.calls[id := Stored(own, sha)], disk := s.disk + {own}, used := s.used + {own});
    var s2 := s1.(calls := s.calls[id := next]);
    assert s1.calls[id := next] == s2.calls;
    OneStep(s, Upload(id, own, sha), s1);
    OneStep(s1, Select(id, candidate), s2);
    RunsOn(s, [Upload(id, own, sha)], s1, [Select(id, candidate)], s2);
  }

  /**
    An upload that nothing disturbs: with no active row of the same hash the file is kept and the row
    points at it; otherwise the row shares the other's file and the upload's own is gone.
   */
  lemma UploadAlone(s: State, id: CallId, own: Path, sha: Hash, candidate: Option<Path>, newRow: RowId)
    requires id !in s.calls && own !in s.used && own !in s.disk && newRow !in s.rows && LocksOwned(s)
    requires candidate.Some? ==> candidate.value !in s.locks && exists r :: r in s.rows && On(s.rows[r], candidate.value) && s.rows[r].sha == sha
    requires candidate.None? ==> forall r, p :: r in s.rows && On(s.rows[r], p) ==> s.rows[r].sha != sha
    ensures Runs(s, [Upload(id, own, sha)] + [Select(id, candidate)]
                    + (if candidate.Some? then [Lock(id)] + [Recheck(id)] + [Commit(id, newRow)] + [Remove(id)] else [Commit(id, newRow)]),
                 Uploaded(s, own, sha, newRow, candidate))
  {
    var next := if candidate.Some? then Selected(own, sha, candidate.value) else Ready(own, sha, None);
    var s2 := s.(calls := s.calls[id := next], disk := s.disk + {own}, used := s.used + {own});
    StoresAndSelects(s, id, own, sha, candidate);
    if candidate.Some? {
      SharesFile(s, s2, id, own, sha, candidate.value, newRow);
      RunsOn(s, [Upload(id, own, sha)] + [Select(id, candidate)], s2,
             [Lock(id)] + [Recheck(id)] + [Commit(id, newRow)] + [Remove(id)], Uploaded(s, own, sha, newRow, candidate));
    } else {
      KeepsFile(s, s2, id, own, sha, newRow);
      RunsOn(s, [Upload(id, own, sha)] + [Select(id, candidate)], s2, [Commit(id, newRow)], Uploaded(s, own, sha, newRow, candidate));
    }
  }

  lemma NoLockOf(s: State, id: CallId)
    requires LocksOwned(s) && id !in s.calls
    ensures forall p :: p in s.locks ==> s.locks[p] != id
  {}

  lemma KeepsFile(s: State, s2: State, id: CallId, own: Path, sha: Hash, newRow: RowId)
    requires id !in s.calls && newRow !in s.rows && LocksOwned(s)
    requires s2 == s.(calls := s.calls[id := Ready(own, sha, None)], disk := s.disk + {own}, used := s.used + {own})
    ensures Runs(s2, [Commit(id, newRow)], Uploaded(s, own, sha, newRow, None))
  {
    hide InUse, InUseExcept;
    NoLockOf(s, id);
    var t := Uploaded(s, own, sha, newRow, None);
    assert LocksAfter(s2, Commit(id, newRow)) == s.locks;
    assert s2.calls - {id} == s.calls;
    OneStep(s2, Commit(id, newRow), t);
  }

  lemma SharesFile(s: State, s2: State, id: CallId, own: Path, sha: Hash, candidate: Path, newRow: RowId)
    requires id !in s.calls && own !in s.disk && newRow !in s.rows && LocksOwned(s) && candidate !in s.locks && InUse(s.rows, candidate)
    requires s2 == s.(calls := s.calls[id := Selected(own, sha, candidate)], disk := s.disk + {own}, used := s.used + {own})
    ensures Runs(s2, [Lock(id)] + [Recheck(id)] + [Commit(id, newRow)] + [Remove(id)], Uploaded(s, own, sha, newRow, Some(candidate)))
  {
    hide InUse, InUseExcept, Runs;
    var s3 := s2.(calls := s.calls[id := Locked(own, sha, candidate)], locks := s.locks[candidate := id]);
    var s4 := s3.(calls := s.calls[id := Ready(own, sha, Some(candidate))]);
    assert s2.calls[id := Locked(own, sha, candidate)] == s3.calls && s3.calls[id := Ready(own, sha, Some(candidate))] == s4.calls;
    OneStep(s2, Lock(id), s3);
    OneStep(s3, Recheck(id), s4);
    RunsOn(s2, [Lock(id)], s3, [Recheck(id)], s4);
    CommitsAndDiscards(s, s4, id, own, sha, candidate, newRow);
    hide Step, Enabled;
    var rest := [Commit(id, newRow)] + [Remove(id)];
    RunsOn(s2, [Lock(id)] + [Recheck(id)], s4, rest, Uploaded(s, own, sha, newRow, Some(candidate)));
    assert [Lock(id)] + [Recheck(id)] + rest == [Lock(id)] + [Recheck(id)] + [Commit(id, newRow)] + [Remove(id)];
  }

  lemma CommitsAndDiscards(s: State, s4: State, id: CallId, own: Path, sha: Hash, candidate: Path, newRow: RowId)
    requires id !in s.calls && own !in s.disk && newRow !in s.rows && LocksOwned(s) && candidate !in s.locks
    requires s4 == s.(calls := s.calls[id := Ready(own, sha, Some(candidate))], locks := s.locks[candidate := id],
                      disk := s.disk + {own}, used := s.used + {own})
    ensures Runs(s4, [Commit(id, newRow)] + [Remove(id)], Uploaded(s, own, sha, newRow, Some(candidate)))
  {
    hide InUse, InUseExcept, Runs;
    NoLockOf(s, id);
    var t := Uploaded(s, own, sha, newRow, Some(candidate));
    var s5 := t.(calls := s.calls[id := Discarding(own)], disk := s.disk + {own});
    assert s4.calls[id := Discarding(own)] == s5.calls && s5.calls - {id} == s.calls;
    assert LocksAfter(s4, Commit(id, newRow)) == s.locks && s5.disk - {own} == s.disk;
    OneStep(s4, Commit(id, newRow), s5);
    OneStep(s5, Remove(id), t);
    RunsOn(s4, [Commit(id, newRow)], s5, [Remove(id)], t);
  }

  /** The state after a whole delete: the row is inactive, and the file goes with its last active row. */
  ghost function Deleted(s: State, row: RowId): State
    requires row in s.rows
  {
    var path := s.rows[row].path;
    s.(rows := s.rows[row := s.rows[row].(active := false)],
       disk := if path.Some? && !InUseExcept(s.rows, path.value, row) then s.disk - {path.value} else s.disk)
  }

  /** A delete that nothing disturbs removes the file exactly when no other active row shares it. */
  lemma DeleteAlone(s: State, id: CallId, row: RowId, newRow: RowId) returns (actions: seq<Action>)
    requires id !in s.calls && row in s.rows && newRow !in s.rows && LocksOwned(s)
    requires s.rows[row].path.Some? ==> s.rows[row].path.value !in s.locks
    ensures Runs(s, [Delete(id, row)] + [Lock(id)] + actions, Deleted(s, row))
  {
    hide Runs;
    var path := s.rows[row].path;
    NoLockOf(s, id);
    var s1 := s.(calls := s.calls[id := Deleting(row, path)]);
    var s2 := s.(calls := s.calls[id := Checking(row, path)], locks := if path.Some? then s.locks[path.value := id] else s.locks);
    assert s1.calls[id := Checking(row, path)] == s2.calls;
    OneStep(s, Delete(id, row), s1);
    OneStep(s1, Lock(id), s2);
    RunsOn(s, [Delete(id, row)], s1, [Lock(id)], s2);
    if path.Some? {
      actions := ChecksAndCommits(s, s2, id, row, path.value, newRow);
    } else {
      var t := Deleted(s, row);
      assert LocksAfter(s2, Commit(id, newRow)) == s.locks && s2.calls - {id} == s.calls;
      OneStep(s2, Commit(id, newRow), t);
      actions := [Commit(id, newRow)];
    }
    RunsOn(s, [Delete(id, row)] + [Lock(id)], s2, actions, Deleted(s, row));
  }

  lemma ChecksAndCommits(s: State, s2: State, id: CallId, row: RowId, path: Path, newRow: RowId) returns (actions: seq<Action>)
    requires id !in s.calls && row in s.rows && newRow !in s.rows && LocksOwned(s) && s.rows[row].path == Some(path) && path !in s.locks
    requires s2 == s.(calls := s.calls[id := Checking(row, Some(path))], locks := s.locks[path := id])
    ensures Runs(s2, actions, Deleted(s, row))
  {
    hide Runs, InUseExcept, InUse;
    NoLockOf(s, id);
    var releasable := !InUseExcept(s.rows, path, row);
    var s3 := s2.(calls := s.calls[id := Decided(row, path, releasable)]);
    assert s2.calls[id := Decided(row, path, releasable)] == s3.calls;
    OneStep(s2, Recheck(id), s3);
    var rest := CommitsAndRemoves(s, s3, id, row, path, newRow, releasable);
    hide Step, Enabled;
    RunsOn(s2, [Recheck(id)], s3, rest, Deleted(s, row));
    actions := [Recheck(id)] + rest;
  }

  lemma CommitsAndRemoves(s: State, s3: State, id: CallId, row: RowId, path: Path, newRow: RowId, releasable: bool) returns (actions: seq<Action>)
    requires id !in s.calls && row in s.rows && newRow !in s.rows && LocksOwned(s) && s.rows[row].path == Some(path) && path !in s.locks
    requires releasable == !InUseExcept(s.rows, path, row)
    requires s3 == s.(calls := s.calls[id := Decided(row, path, releasable)], locks := s.locks[path := id])
    ensures Runs(s3, actions, Deleted(s, row))
  {
    hide Runs, InUseExcept, InUse;
    NoLockOf(s, id);
    var t, commit := Deleted(s, row), Commit(id, newRow);
    assert LocksAfter(s3, commit) == s.locks && s3.calls - {id} == s.calls;
    if releasable {
      var s4 := t.(calls := s.calls[id := Removing(path)], disk := s.disk);
      assert s3.calls[id := Removing(path)] == s4.calls && s4.calls - {id} == s.calls;
      OneStep(s3, commit, s4);
      OneStep(s4, Remove(id), t);
      RunsOn(s3, [commit], s4, [Remove(id)], t);
      actions := [commit] + [Remove(id)];
    } else {
      OneStep(s3, commit, t);
      actions := [commit];
    }
  }

  // ----- the two calls, uninterrupted

  /** The disk holds the active rows' files and nothing else. */
  ghost predicate Exact(rows: map<RowId, Row>, disk: set<Path>) { forall p: Path :: p in disk <==> InUse(rows, p) }

  predicate Duplicate(rows: map<RowId, Row>, r: RowId, sha: Hash) {
    r in rows && rows[r].active && rows[r].path.Some? && rows[r].sha == sha
  }

  class MediaStore {
    var rows: map<RowId, Row>
    var disk: set<Path>

    constructor ()
      ensures rows == map[] && disk == {}
    {
      rows, disk := map[], {};
    }

    /** `insertUploadedMedia`, after the bytes were stored under a path of their own. */
    method InsertUploadedMedia(own: Path, sha: Hash, newRow: RowId, insertFails: bool) returns (deduped: Option<bool>)
      requires own in disk && !RowPath(rows, own) && newRow !in rows
      modifies this
      ensures insertFails <==> deduped.None?
      ensures insertFails ==> rows == old(rows)
      ensures !insertFails ==>
                && rows.Keys == old(rows.Keys) + {newRow} && rows - {newRow} == old(rows)
                && rows[newRow].active && rows[newRow].sha == sha && rows[newRow].path.Some?
                && (deduped.value <==> exists r :: Duplicate(old(rows), r, sha))
                && (deduped.value ==> exists r :: Duplicate(old(rows), r, sha) && old(rows)[r].path == rows[newRow].path)
                && (!deduped.value ==> rows[newRow].path == Some(own))
      ensures disk == old(disk) - (if deduped == Some(false) then {} else {own})
      ensures old(Exact(rows, disk - {own})) ==> Exact(rows, disk)
    {
      if insertFails {
        disk := disk - {own};
        return None;
      }
      var same := set r | r in rows && Duplicate(rows, r, sha);
      var path := own;
      if same != {} {
        var r :| r in same;
        path := rows[r].path.value;
      }
      ghost var before := rows;
      rows := rows[newRow := Row(Some(path), sha, true)];
      deduped := Some(same != {});
      if same != {} {
        disk := disk - {own};
      }
      OneMoreRow(before, newRow, rows[newRow]);
    }

    /** `softDeleteMedia`: the file goes exactly when no other active row shares it. */
    method SoftDeleteMedia(row: RowId) returns (removed: bool)
      requires row in rows && rows[row].active
      modifies this
      ensures rows == old(rows)[row := old(rows)[row].(active := false)]
      ensures removed <==> old(rows)[row].path.Some? && !InUseExcept(old(rows), old(rows)[row].path.value, row)
      ensures disk == old(disk) - (if removed then {old(rows)[row].path.value} else {})
      ensures old(Exact(rows, disk)) ==> Exact(rows, disk)
    {
      ghost var before := rows;
      var path := rows[row].path;
      rows := rows[row := rows[row].(active := false)];
      OneRowLess(before, row);
      if path.None? {
        return false;
      }
      var others := set r | r in rows && r != row && On(rows[r], path.value);
      assert others == {} <==> !InUseExcept(before, path.value, row) by {
        if others == {} {
          assert forall r :: r in before && r != row ==> rows[r] == before[r];
          assert forall r :: r in rows && r != row && On(rows[r], path.value) ==> r in others;
        } else {
          var r :| r in others;
          assert On(before[r], path.value);
        }
      }
      removed := others == {};
      if removed {
        disk := disk - {path.value};
      }
    }
  }

  lemma OneMoreRow(rows: map<RowId, Row>, newRow: RowId, row: Row)
    requires newRow !in rows && row.active && row.path.Some?
    ensures forall p: Path :: InUse(rows[newRow := row], p) <==> InUse(rows, p) || row.path == Some(p)
  {
    var after := rows[newRow := row];
    forall p: Path
      ensures InUse(after, p) <==> InUse(rows, p) || row.path == Some(p)
    {
      assert row.path == Some(p) ==> On(after[newRow], p);
      if InUse(rows, p) {
        var r :| r in rows && On(rows[r], p);
        assert On(after[r], p);
      }
    }
  }

  lemma OneRowLess(rows: map<RowId, Row>, row: RowId)
    requires row in rows && rows[row].active
    ensures forall p: Path :: InUse(rows[row := rows[row].(active := false)], p) <==> InUseExcept(rows, p, row)
    ensures forall p: Path :: rows[row].path != Some(p) ==> (InUseExcept(rows, p, row) <==> InUse(rows, p))
  {
    var after := rows[row := rows[row].(active := false)];
    forall p: Path
      ensures InUse(after, p) <==> InUseExcept(rows, p, row)
    {
      if InUseExcept(rows, p, row) {
        var r :| r in rows && r != row && On(rows[r], p);
        assert On(after[r], p);
      }
    }
  }
}
