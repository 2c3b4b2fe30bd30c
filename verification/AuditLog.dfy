/**
  The writer of the audit chain: the append trigger (packages/db/drizzle/0135_audit_log_chain_v2.sql).
  The table stores hashes as bytes; the verifier reads them as hex.
 */
module AuditLog {

  import opened Bytes
  import opened Wrappers
  import opened AuditChain

  /** A stored row; the hash columns of `row` itself are not used. */
  datatype Stored = Stored(row: Row, prevHash: Option<bytes>, rowHash: bytes)

  /** The bytes of a text in the ASCII range. */
  function Ascii(s: string): bytes
    requires forall i :: 0 <= i < |s| ==> s[i] < '\U{80}'
  {
    seq(|s|, i requires 0 <= i < |s| => s[i] as int as byte)
  }

  /** `audit_log_hash_field_v2`. */
  function SqlField(value: Option<bytes>): bytes {
    if value.None? then Ascii("|-") else Ascii("|") + Decimal(|value.value|) + Ascii(":") + value.value
  }

  /** The text the trigger hashes behind the previous hash. */
  function SqlText(row: Row): bytes {
    Ascii("v2")
    + SqlField(Some(row.id))
    + SqlField(Some(row.createdAtUtc))
    + SqlField(Some(row.actorKind))
    + SqlField(row.actorPlayerId)
    + SqlField(row.actorTokenId)
    + SqlField(row.actorSystemLabel)
    + SqlField(row.actorIp)
    + SqlField(Some(row.actionType))
    + SqlField(row.targetType)
    + SqlField(row.targetId)
    + SqlField(row.beforeSnapshot)
    + SqlField(row.afterSnapshot)
    + SqlField(Some(row.context))
    + SqlField(row.statusCode)
    + SqlField(row.durationMs)
  }

  /** The trigger: the new row takes the last row's hash, the v2 form, and the digest of both. */
  function Append(hash: Hash, log: seq<Stored>, entry: Row): seq<Stored> {
    var prev := if log == [] then None else Some(log[|log| - 1].rowHash);
    var row := entry.(hashVersion := 2);
    log + [Stored(row, prev, hash((if prev.Some? then prev.value else []) + SqlText(row)))]
  }

  lemma SameField(value: Option<bytes>)
    ensures SqlField(value) == V2Field(value)
  {
    hide Decimal;
    assert Ascii("|-") == [BAR, DASH] && Ascii("|") == [BAR] && Ascii(":") == [COLON];
  }

  lemma {:induction false} OneMoreField(values: seq<Option<bytes>>, value: Option<bytes>)
    ensures Fields(values + [value]) == Fields(values) + V2Field(value)
  {
    hide V2Field;
    if values == [] {
      assert values + [value] == [value] && [value][1..] == [];
    } else {
      assert (values + [value])[1..] == values[1..] + [value];
      OneMoreField(values[1..], value);
    }
  }

  lemma NextField(start: bytes, done: bytes, values: seq<Option<bytes>>, k: nat, value: Option<bytes>)
    requires k < |values| && values[k] == value && done == start + Fields(values[..k])
    ensures done + SqlField(value) == start + Fields(values[..k + 1])
  {
    hide Fields, V2Field, SqlField;
    assert values[..k + 1] == values[..k] + [value];
    OneMoreField(values[..k], value);
    SameField(value);
  }

  lemma FiveMore(start: bytes, done: bytes, values: seq<Option<bytes>>, k: nat,
                 a: Option<bytes>, b: Option<bytes>, c: Option<bytes>, d: Option<bytes>, e: Option<bytes>)
    requires k + 5 <= |values| && done == start + Fields(values[..k])
    requires values[k] == a && values[k + 1] == b && values[k + 2] == c && values[k + 3] == d && values[k + 4] == e
    ensures done + SqlField(a) + SqlField(b) + SqlField(c) + SqlField(d) + SqlField(e) == start + Fields(values[..k + 5])
  {
    hide Fields, SqlField;
    NextField(start, done, values, k, a);
    NextField(start, done + SqlField(a), values, k + 1, b);
    NextField(start, done + SqlField(a) + SqlField(b), values, k + 2, c);
    NextField(start, done + SqlField(a) + SqlField(b) + SqlField(c), values, k + 3, d);
    NextField(start, done + SqlField(a) + SqlField(b) + SqlField(c) + SqlField(d), values, k + 4, e);
  }

  lemma TextStarts(row: Row)
    ensures Ascii("v2") == Ascii("v2") + Fields(HashedColumns(row)[..0])
    ensures CanonicalV2(row) == Ascii("v2") + Fields(HashedColumns(row)[..15])
  {
    assert Ascii("v2") == [118, 50] && HashedColumns(row)[..15] == HashedColumns(row);
  }

  lemma ColumnsInOrder(row: Row)
    ensures var c := HashedColumns(row);
            && c[0] == Some(row.id) && c[1] == Some(row.createdAtUtc) && c[2] == Some(row.actorKind)
            && c[3] == row.actorPlayerId && c[4] == row.actorTokenId && c[5] == row.actorSystemLabel && c[6] == row.actorIp
            && c[7] == Some(row.actionType) && c[8] == row.targetType && c[9] == row.targetId && c[10] == row.beforeSnapshot
            && c[11] == row.afterSnapshot && c[12] == Some(row.context) && c[13] == row.statusCode && c[14] == row.durationMs
  {}

  /** The trigger and the verifier write the same text, field by field. */
  lemma TriggerWritesCanonicalText(row: Row)
    ensures SqlText(row) == CanonicalV2(row)
  {
    hide Fields, SqlField, Ascii, HashedColumns, CanonicalV2;
    var c, v2 := HashedColumns(row), Ascii("v2");
    TextStarts(row);
    ColumnsInOrder(row);
    var five := v2 + SqlField(Some(row.id)) + SqlField(Some(row.createdAtUtc)) + SqlField(Some(row.actorKind))
                + SqlField(row.actorPlayerId) + SqlField(row.actorTokenId);
    FiveMore(v2, v2, c, 0, Some(row.id), Some(row.createdAtUtc), Some(row.actorKind), row.actorPlayerId, row.actorTokenId);
    var ten := five + SqlField(row.actorSystemLabel) + SqlField(row.actorIp) + SqlField(Some(row.actionType))
               + SqlField(row.targetType) + SqlField(row.targetId);
    FiveMore(v2, five, c, 5, row.actorSystemLabel, row.actorIp, Some(row.actionType), row.targetType, row.targetId);
    FiveMore(v2, ten, c, 10, row.beforeSnapshot, row.afterSnapshot, Some(row.context), row.statusCode, row.durationMs);
  }

  /** A row as the verifier's query shows it. */
  function Show(s: Stored): Row {
    s.row.(prevHashHex := if s.prevHash.Some? then Some(ToHex(s.prevHash.value)) else None, rowHashHex := ToHex(s.rowHash))
  }

  function Shown(log: seq<Stored>): (rows: seq<Row>)
    ensures |rows| == |log| && forall i :: 0 <= i < |log| ==> rows[i] == Show(log[i])
  {
    seq(|log|, i requires 0 <= i < |log| => Show(log[i]))
  }

  function Written(hash: Hash, log: seq<Stored>, entries: seq<Row>): seq<Stored>
    decreases |entries|
  {
    if entries == [] then log else Written(hash, Append(hash, log, entries[0]), entries[1..])
  }

  /** Stored hashes are digests. */
  predicate Digests(log: seq<Stored>) { forall i :: 0 <= i < |log| ==> |log[i].rowHash| == 32 }

  lemma ToHexLength(b: bytes)
    requires b != []
    ensures ToHex(b) != ""
  {}

  /** The appended row continues the chain: the verifier's recomputation is the trigger's computation. */
  lemma AppendedRowFits(hash: Hash, log: seq<Stored>, entry: Row)
    requires Digest(hash) && Digests(log)
    requires log != [] ==> log[|log| - 1].row.hashVersion <= 2
    ensures Fault(hash, None, Shown(Append(hash, log, entry)), |log|).None?
  {
    hide ToHex, FromHex, CanonicalV2, SqlText;
    var rows := Shown(Append(hash, log, entry));
    var n := |log|;
    TriggerWritesCanonicalText(entry.(hashVersion := 2));
    assert rows[n] == Show(Append(hash, log, entry)[n]);
    SameText(Append(hash, log, entry)[n]);
    if n > 0 {
      assert rows[n - 1] == Show(log[n - 1]);
      HexRoundTrip(log[n - 1].rowHash);
      ToHexLength(log[n - 1].rowHash);
    }
  }

  /** The hash columns are not part of the hashed text. */
  lemma SameText(s: Stored)
    ensures CanonicalV2(Show(s)) == CanonicalV2(s.row)
  {}

  lemma AppendKeepsChain(hash: Hash, log: seq<Stored>, entry: Row)
    requires Digest(hash) && Digests(log) && Sound(hash, None, Shown(log), |log|)
    ensures var more := Append(hash, log, entry);
            Digests(more) && Sound(hash, None, Shown(more), |more|)
  {
    hide ToHex, FromHex, CanonicalV2, SqlText, Fault;
    var more := Append(hash, log, entry);
    var rows := Shown(log);
    if log != [] {
      assert VersionFits(rows, |log| - 1) by { FaultlessFits(hash, rows, |log| - 1); }
      assert rows[|log| - 1] == Show(log[|log| - 1]);
    }
    AppendedRowFits(hash, log, entry);
    assert Shown(more) == rows + [Show(more[|log|])];
    LaterRowsDoNotMatter(hash, None, rows, [Show(more[|log|])]);
  }

  lemma FaultlessFits(hash: Hash, rows: seq<Row>, i: nat)
    requires i < |rows| && Fault(hash, None, rows, i).None?
    ensures VersionFits(rows, i)
  {}

  /** Whatever is appended to an accepted log, old v1 rows included, is accepted again. */
  lemma {:induction false} WrittenLogIsAccepted(hash: Hash, log: seq<Stored>, entries: seq<Row>)
    requires Digest(hash) && Digests(log) && Sound(hash, None, Shown(log), |log|)
    ensures var more := Written(hash, log, entries);
            |more| == |log| + |entries| && Digests(more) && Sound(hash, None, Shown(more), |more|)
    decreases |entries|
  {
    hide Sound, Digests, Shown;
    if entries != [] {
      AppendKeepsChain(hash, log, entries[0]);
      WrittenLogIsAccepted(hash, Append(hash, log, entries[0]), entries[1..]);
    }
  }

  lemma AppendsOne(hash: Hash, log: seq<Stored>, entry: Row)
    ensures var more := Append(hash, log, entry);
            |more| == |log| + 1 && more[..|log|] == log && more[|log|].row == entry.(hashVersion := 2)
  {
    hide SqlText;
  }

  lemma {:induction false} WrittenRow(hash: Hash, log: seq<Stored>, entries: seq<Row>, i: nat)
    requires i < |entries|
    ensures |Written(hash, log, entries)| == |log| + |entries|
    ensures Written(hash, log, entries)[|log| + i].row == entries[i].(hashVersion := 2)
    decreases |entries|
  {
    hide Append;
    var more := Append(hash, log, entries[0]);
    AppendsOne(hash, log, entries[0]);
    if i == 0 {
      KeptPrefix(hash, more, entries[1..]);
      assert Written(hash, more, entries[1..])[..|more|][|log|] == more[|log|];
    } else {
      WrittenRow(hash, more, entries[1..], i - 1);
    }
  }

  lemma {:induction false} KeptPrefix(hash: Hash, log: seq<Stored>, entries: seq<Row>)
    ensures |Written(hash, log, entries)| == |log| + |entries|
    ensures Written(hash, log, entries)[..|log|] == log
    decreases |entries|
  {
    hide Append;
    if entries != [] {
      var more := Append(hash, log, entries[0]);
      AppendsOne(hash, log, entries[0]);
      KeptPrefix(hash, more, entries[1..]);
      assert Written(hash, more, entries[1..])[..|more|][..|log|] == more[..|log|];
    }
  }

  /** What was hashed for a row of a written log. */
  function TextAt(log: seq<Stored>, i: nat): bytes
    requires i < |log|
  {
    (if i == 0 then [] else log[i - 1].rowHash) + SqlText(log[i].row)
  }

  /** No two texts hashed at one position of the two logs collide. */
  ghost predicate NoCollision(hash: Hash, x: seq<Stored>, y: seq<Stored>) {
    forall i :: 0 <= i < |x| && i < |y| && hash(TextAt(x, i)) == hash(TextAt(y, i)) ==> TextAt(x, i) == TextAt(y, i)
  }

  lemma MaterialIsText(log: seq<Stored>, i: nat)
    requires Digests(log) && i < |log| && log[i].row.hashVersion == 2
    ensures Material(PrevOf(Shown(log), i), Shown(log)[i]) == TextAt(log, i)
  {
    hide ToHex, FromHex, CanonicalV2, SqlText;
    SameText(log[i]);
    TriggerWritesCanonicalText(log[i].row);
    if i > 0 {
      assert Shown(log)[i - 1] == Show(log[i - 1]);
      HexRoundTrip(log[i - 1].rowHash);
      ToHexLength(log[i - 1].rowHash);
    }
  }

  lemma WrittenMaterial(hash: Hash, a: seq<Row>, i: nat)
    requires Digest(hash) && i < |a|
    ensures var x := Written(hash, [], a);
            && |x| == |a| && Sound(hash, None, Shown(x), |a|) && VersionFits(Shown(x), i)
            && Material(PrevOf(Shown(x), i), Shown(x)[i]) == TextAt(x, i)
  {
    hide ToHex, FromHex, Written, Fault, Material, TextAt;
    var x := Written(hash, [], a);
    WrittenLogIsAccepted(hash, [], a);
    FaultlessFits(hash, Shown(x), i);
    WrittenRow(hash, [], a, i);
    MaterialIsText(x, i);
  }

  /** What the verifier hashes for each row is what the trigger hashed. */
  ghost predicate SameTexts(rows: seq<Row>, log: seq<Stored>) {
    |rows| == |log| && forall i :: 0 <= i < |rows| ==> VersionFits(rows, i) && Material(PrevOf(rows, i), rows[i]) == TextAt(log, i)
  }

  lemma WrittenTexts(hash: Hash, a: seq<Row>)
    requires Digest(hash)
    ensures var x := Written(hash, [], a);
            |x| == |a| && Sound(hash, None, Shown(x), |a|) && SameTexts(Shown(x), x)
  {
    WrittenLogIsAccepted(hash, [], a);
    hide Written, Material, TextAt, Sound, VersionFits, Digest;
    forall i | 0 <= i < |a|
      ensures var x := Written(hash, [], a);
              VersionFits(Shown(x), i) && Material(PrevOf(Shown(x), i), Shown(x)[i]) == TextAt(x, i)
    {
      WrittenMaterial(hash, a, i);
    }
  }

  lemma WrittenLogsCompare(hash: Hash, a: seq<Row>, b: seq<Row>)
    requires Digest(hash) && |a| == |b| && NoCollision(hash, Written(hash, [], a), Written(hash, [], b))
    ensures Comparable(hash, Shown(Written(hash, [], a)), Shown(Written(hash, [], b)))
  {
    hide Written, Material, TextAt, Sound, VersionFits, Fault, Digest, Shown;
    WrittenTexts(hash, a);
    WrittenTexts(hash, b);
  }

  /**
    Two logs of equal length written by the trigger that end in the same hash have the same entries:
    every hashed column of every row, unless two of the hashed texts collide.
   */
  lemma SameHeadSameLog(hash: Hash, a: seq<Row>, b: seq<Row>, i: nat)
    requires Digest(hash) && |a| == |b| && i < |a| && NoCollision(hash, Written(hash, [], a), Written(hash, [], b))
    requires var x, y := Written(hash, [], a), Written(hash, [], b);
             x != [] && y != [] && x[|x| - 1].rowHash == y[|y| - 1].rowHash
    ensures SameAudited(a[i], b[i])
  {
    hide ToHex, FromHex, Written, Fault, NoCollision, Comparable, Canonical;
    var x, y := Written(hash, [], a), Written(hash, [], b);
    WrittenRow(hash, [], a, i);
    WrittenRow(hash, [], b, i);
    WrittenLogsCompare(hash, a, b);
    assert Shown(x)[|a| - 1].rowHashHex == Shown(y)[|a| - 1].rowHashHex;
    HeadPinsHistory(hash, Shown(x), Shown(y), |a| - 1, i);
  }
}
