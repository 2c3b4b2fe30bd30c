/**
  The audit log's hash chain and its verifier (apps/api/src/lib/audit-chain.ts).

  Texts are their UTF-8 bytes.  SHA-256 is a parameter: any function from bytes to 32 bytes.
  Results that need it to be collision free say so about the materials that were really hashed,
  because no function to 32 bytes is injective on all byte strings.
 */
module AuditChain {

  import opened Bytes
  import opened Wrappers

  type Hash = bytes -> bytes

  ghost predicate Digest(hash: Hash) { forall m :: |hash(m)| == 32 }

  datatype Row = Row(
    id: bytes,
    hashVersion: int,
    actionType: bytes,
    targetType: Option<bytes>,
    targetId: Option<bytes>,
    context: bytes,
    createdAt: bytes,
    createdAtUtc: bytes,
    actorKind: bytes,
    actorPlayerId: Option<bytes>,
    actorTokenId: Option<bytes>,
    actorSystemLabel: Option<bytes>,
    actorIp: Option<bytes>,
    beforeSnapshot: Option<bytes>,
    afterSnapshot: Option<bytes>,
    statusCode: Option<bytes>,
    durationMs: Option<bytes>,
    prevHashHex: Option<string>,
    rowHashHex: string
  )

  // ----- length-prefixed fields

  const BAR: byte := 124
  const DASH: byte := 45
  const COLON: byte := 58

  predicate IsDigit(b: byte) { 48 <= b <= 57 }

  function Decimal(n: nat): (d: bytes)
    ensures d != [] && forall i :: 0 <= i < |d| ==> IsDigit(d[i])
    ensures DecimalValue(d) == n && (n > 0 ==> d[0] != 48)
  {
    if n < 10 then [(48 + n) as byte]
    else
      var d := Decimal(n / 10) + [(48 + n % 10) as byte];
      assert d[..|d| - 1] == Decimal(n / 10);
      d
  }

  function DecimalValue(d: bytes): int {
    if d == [] then 0 else 10 * DecimalValue(d[..|d| - 1]) + (d[|d| - 1] as int - 48)
  }

  /** `v2Field`: NULL as `|-`, any other value behind its byte length. */
  function V2Field(value: Option<bytes>): bytes {
    match value
    case None => [BAR, DASH]
    case Some(v) => [BAR] + Decimal(|v|) + [COLON] + v
  }

  /** Digits that end at a colon can be read in one way only. */
  lemma {:induction false} DigitsEndAtColon(d: bytes, x: bytes, e: bytes, y: bytes)
    requires forall i :: 0 <= i < |d| ==> IsDigit(d[i])
    requires forall i :: 0 <= i < |e| ==> IsDigit(e[i])
    requires d + [COLON] + x == e + [COLON] + y
    ensures d == e && x == y
  {
    var s := d + [COLON] + x;
    assert s[|d|] == COLON && forall i :: 0 <= i < |d| ==> s[i] == d[i];
    assert s[|e|] == COLON && forall i :: 0 <= i < |e| ==> s[i] == e[i];
    assert |d| == |e|;
    assert d == s[..|d|] == e;
    assert x == s[|d| + 1..] == y;
  }

  /** A field can be read off the front of any text in one way only. */
  lemma FieldIsSelfDelimiting(a: Option<bytes>, x: bytes, b: Option<bytes>, y: bytes)
    requires V2Field(a) + x == V2Field(b) + y
    ensures a == b && x == y
  {
    hide Decimal;
    NullShows(a, x);
    NullShows(b, y);
    if a.Some? {
      ValuesAreSelfDelimiting(a.value, x, b.value, y);
    } else {
      assert x == (V2Field(a) + x)[2..] && y == (V2Field(b) + y)[2..];
    }
  }

  lemma NullShows(a: Option<bytes>, x: bytes)
    ensures |V2Field(a) + x| > 1 && (a.None? <==> (V2Field(a) + x)[1] == DASH)
  {
    hide Decimal;
    if a.Some? {
      assert (V2Field(a) + x)[1] == Decimal(|a.value|)[0];
    }
  }

  lemma ValuesAreSelfDelimiting(v: bytes, x: bytes, w: bytes, y: bytes)
    requires V2Field(Some(v)) + x == V2Field(Some(w)) + y
    ensures v == w && x == y
  {
    hide Decimal;
    var d, e := Decimal(|v|), Decimal(|w|);
    Regroup([BAR], d, [COLON], v, x);
    Regroup([BAR], e, [COLON], w, y);
    DigitsEndAtColon(d, v + x, e, w + y);
    assert |v| == DecimalValue(d) == |w|;
    assert v == (v + x)[..|v|] && x == (v + x)[|v|..];
    assert w == (w + y)[..|w|] && y == (w + y)[|w|..];
  }

  lemma Regroup(a: bytes, b: bytes, c: bytes, d: bytes, e: bytes)
    ensures (a + b + c + d + e)[|a|..] == b + c + (d + e)
  {}

  function Fields(values: seq<Option<bytes>>): bytes {
    if values == [] then [] else V2Field(values[0]) + Fields(values[1..])
  }

  lemma {:induction false} FieldsAreDecodable(a: seq<Option<bytes>>, b: seq<Option<bytes>>)
    requires |a| == |b| && Fields(a) == Fields(b)
    ensures a == b
  {
    if a != [] {
      FieldIsSelfDelimiting(a[0], Fields(a[1..]), b[0], Fields(b[1..]));
      FieldsAreDecodable(a[1..], b[1..]);
      assert a == [a[0]] + a[1..] && b == [b[0]] + b[1..];
    }
  }

  /** The columns the v2 form hashes, in its order. */
  function HashedColumns(row: Row): (c: seq<Option<bytes>>)
    ensures |c| == 15
  {
    [ Some(row.id), Some(row.createdAtUtc), Some(row.actorKind), row.actorPlayerId, row.actorTokenId,
      row.actorSystemLabel, row.actorIp, Some(row.actionType), row.targetType, row.targetId,
      row.beforeSnapshot, row.afterSnapshot, Some(row.context), row.statusCode, row.durationMs ]
  }

  function CanonicalV2(row: Row): bytes { [118, 50] + Fields(HashedColumns(row)) }

  function OrEmpty(v: Option<bytes>): bytes { if v.Some? then v.value else [] }

  function CanonicalV1(row: Row): bytes {
    row.actionType + [BAR] + OrEmpty(row.targetType) + [BAR] + OrEmpty(row.targetId) + [BAR] + row.context + [BAR] + row.createdAt
  }

  function Canonical(row: Row): bytes
    requires row.hashVersion == 1 || row.hashVersion == 2
  {
    if row.hashVersion == 1 then CanonicalV1(row) else CanonicalV2(row)
  }

  /** Two rows agree on every column but the hashes, the version and the local time of v1. */
  predicate SameAudited(a: Row, b: Row) {
    && a.id == b.id && a.createdAtUtc == b.createdAtUtc && a.actorKind == b.actorKind && a.actorPlayerId == b.actorPlayerId
    && a.actorTokenId == b.actorTokenId && a.actorSystemLabel == b.actorSystemLabel && a.actorIp == b.actorIp
    && a.actionType == b.actionType && a.targetType == b.targetType && a.targetId == b.targetId
    && a.beforeSnapshot == b.beforeSnapshot && a.afterSnapshot == b.afterSnapshot && a.context == b.context
    && a.statusCode == b.statusCode && a.durationMs == b.durationMs
  }

  /** The v2 text determines every audited column, and nothing else. */
  lemma CanonicalV2IsInjective(a: Row, b: Row)
    ensures CanonicalV2(a) == CanonicalV2(b) <==> SameAudited(a, b)
  {
    hide Fields;
    var c, d := HashedColumns(a), HashedColumns(b);
    if CanonicalV2(a) == CanonicalV2(b) {
      assert Fields(c) == CanonicalV2(a)[2..];
      assert Fields(d) == CanonicalV2(b)[2..];
      FieldsAreDecodable(c, d);
      ColumnsByName(a, b);
    }
  }

  lemma ColumnsByName(a: Row, b: Row)
    requires HashedColumns(a) == HashedColumns(b)
    ensures SameAudited(a, b)
  {
    var c, d := HashedColumns(a), HashedColumns(b);
    assert c[0] == d[0] && c[1] == d[1] && c[2] == d[2] && c[3] == d[3] && c[4] == d[4];
    assert c[5] == d[5] && c[6] == d[6] && c[7] == d[7] && c[8] == d[8] && c[9] == d[9];
    assert c[10] == d[10] && c[11] == d[11] && c[12] == d[12] && c[13] == d[13] && c[14] == d[14];
  }

  // ----- hex

  function HexDigit(n: int): (c: char)
    requires 0 <= n < 16
    ensures HexValue(c) == Some(n) && c == "0123456789abcdef"[n]
  {
    if n < 10 then '0' + n as char else 'a' + (n - 10) as char
  }

  function HexValue(c: char): Option<int> {
    if '0' <= c <= '9' then Some(c as int - '0' as int)
    else if 'a' <= c <= 'f' then Some(c as int - 'a' as int + 10)
    else if 'A' <= c <= 'F' then Some(c as int - 'A' as int + 10)
    else None
  }

  function ToHex(b: bytes): string {
    if b == [] then "" else [HexDigit(b[0] as int / 16), HexDigit(b[0] as int % 16)] + ToHex(b[1..])
  }

  /** `Buffer.from(s, 'hex')`: byte by byte up to the first pair that is not hex. */
  function FromHex(s: string): bytes {
    if |s| < 2 || HexValue(s[0]).None? || HexValue(s[1]).None? then []
    else
      var n := HexValue(s[0]).value * 16 + HexValue(s[1]).value;
      if 0 <= n < 256 then [n as byte] + FromHex(s[2..]) else []
  }

  lemma {:induction false} HexRoundTrip(b: bytes)
    ensures FromHex(ToHex(b)) == b
  {
    if b != [] {
      HexRoundTrip(b[1..]);
      var s := ToHex(b);
      assert s[2..] == ToHex(b[1..]);
      assert b == [b[0]] + b[1..];
    }
  }

  // ----- the chain

  function PrevBytes(prev: Option<string>): bytes {
    if prev.Some? && prev.value != "" then FromHex(prev.value) else []
  }

  function Material(prev: Option<string>, row: Row): bytes
    requires row.hashVersion == 1 || row.hashVersion == 2
  {
    PrevBytes(prev) + Canonical(row)
  }

  function ExpectedRowHashHex(hash: Hash, prev: Option<string>, row: Row): string
    requires row.hashVersion == 1 || row.hashVersion == 2
  {
    ToHex(hash(Material(prev, row)))
  }

  datatype Reason = PrevHash | RowHash | HashVersion | AnchorMismatch

  datatype Anchor = Anchor(id: bytes, rowHashHex: string)

  datatype Break = Break(id: bytes, reason: Reason)

  datatype Verdict = Verdict(ok: bool, checked: nat, broken: Option<Break>)

  // What it means for row `i` to continue the chain.

  function PrevOf(rows: seq<Row>, i: nat): Option<string>
    requires i <= |rows|
  {
    if i == 0 then None else Some(rows[i - 1].rowHashHex)
  }

  function OrBlank(s: Option<string>): string { if s.Some? then s.value else "" }

  predicate VersionFits(rows: seq<Row>, i: nat)
    requires i < |rows|
  {
    (rows[i].hashVersion == 1 || rows[i].hashVersion == 2) && (i > 0 ==> rows[i - 1].hashVersion <= rows[i].hashVersion)
  }

  function Fault(hash: Hash, anchor: Option<Anchor>, rows: seq<Row>, i: nat): Option<Reason>
    requires i < |rows|
  {
    if !VersionFits(rows, i) then Some(HashVersion)
    else if OrBlank(PrevOf(rows, i)) != OrBlank(rows[i].prevHashHex) then Some(PrevHash)
    else if ExpectedRowHashHex(hash, PrevOf(rows, i), rows[i]) != rows[i].rowHashHex then Some(RowHash)
    else if anchor.Some? && rows[i].id == anchor.value.id && rows[i].rowHashHex != anchor.value.rowHashHex then Some(AnchorMismatch)
    else None
  }

  ghost predicate Sound(hash: Hash, anchor: Option<Anchor>, rows: seq<Row>, n: nat)
    requires n <= |rows|
  {
    forall i :: 0 <= i < n ==> Fault(hash, anchor, rows, i).None?
  }

  ghost predicate Contains(rows: seq<Row>, id: bytes) { exists i :: 0 <= i < |rows| && rows[i].id == id }

  /**
    The incremental verifier.  `fed` is every row fed so far; after a break the rows behind it are
    ignored.
   */
  class AuditChainVerifier {
    const hash: Hash
    const anchor: Option<Anchor>
    var prevHashHex: Option<string>
    var highestVersion: int
    var checked: nat
    var broken: Option<Break>
    var lastVerified: Option<Anchor>
    var anchorSeen: bool
    ghost var fed: seq<Row>

    ghost predicate Valid()
      reads this
    {
      && checked <= |fed| && Sound(hash, anchor, fed, checked)
      && prevHashHex == PrevOf(fed, checked)
      && (broken.None? ==> highestVersion == if checked == 0 then 0 else fed[checked - 1].hashVersion)
      && lastVerified == (if checked == 0 then None else Some(Anchor(fed[checked - 1].id, fed[checked - 1].rowHashHex)))
      && (anchorSeen <==> anchor.Some? && Contains(fed[..checked], anchor.value.id))
      && (broken.None? ==> checked == |fed|)
      && (broken.Some? ==>
            && checked < |fed| && broken.value.id == fed[checked].id
            && Fault(hash, anchor, fed, checked) == Some(broken.value.reason))
    }

    constructor (hash: Hash, anchor: Option<Anchor>)
      ensures Valid() && fed == [] && this.hash == hash && this.anchor == anchor
    {
      this.hash, this.anchor := hash, anchor;
      prevHashHex, highestVersion, checked, broken, lastVerified, anchorSeen := None, 0, 0, None, None, false;
      fed := [];
    }

    method Feed(rows: seq<Row>) returns (ok: bool)
      requires Valid()
      modifies this
      ensures Valid() && fed == old(fed) + rows && ok == broken.None?
    {
      var k := 0;
      while k < |rows|
        invariant k <= |rows| && Valid() && fed == old(fed) + rows[..k]
      {
        if broken.Some? {
          Ignore(rows[k..]);
          assert old(fed) + rows[..k] + rows[k..] == old(fed) + rows;
          return false;
        }
        FeedOne(rows[k]);
        assert old(fed) + rows[..k] + [rows[k]] == old(fed) + rows[..k + 1];
        k := k + 1;
      }
      assert rows[..k] == rows;
      ok := broken.None?;
    }

    ghost method Ignore(rows: seq<Row>)
      requires Valid() && broken.Some?
      modifies this`fed
      ensures Valid() && fed == old(fed) + rows
    {
      LaterRowsDoNotMatter(hash, anchor, fed, rows);
      assert fed[..checked] == (fed + rows)[..checked];
      fed := fed + rows;
    }

    method FeedOne(row: Row)
      requires Valid() && broken.None?
      modifies this
      ensures Valid() && fed == old(fed) + [row]
    {
      hide ExpectedRowHashHex, Contains, Fault, Sound;
      SoundGrows(hash, anchor, fed, row);
      FaultOfNext(hash, anchor, fed, row);
      VersionsKnown(hash, anchor, fed);
      ContainsOneMore(fed, row);
      assert fed[..checked] == fed == (fed + [row])[..|fed|] && fed + [row] == (fed + [row])[..|fed| + 1];
      fed := fed + [row];
      var version := row.hashVersion;
      if (version != 1 && version != 2) || version < highestVersion {
        broken := Some(Break(row.id, HashVersion));
        return;
      }
      highestVersion := version;
      if OrBlank(prevHashHex) != OrBlank(row.prevHashHex) {
        broken := Some(Break(row.id, PrevHash));
        return;
      }
      if ExpectedRowHashHex(hash, prevHashHex, row) != row.rowHashHex {
        broken := Some(Break(row.id, RowHash));
        return;
      }
      if anchor.Some? && row.id == anchor.value.id {
        if row.rowHashHex != anchor.value.rowHashHex {
          broken := Some(Break(row.id, AnchorMismatch));
          return;
        }
        anchorSeen := true;
      }
      prevHashHex := Some(row.rowHashHex);
      lastVerified := Some(Anchor(row.id, row.rowHashHex));
      checked := checked + 1;
    }

    /** The verdict: intact exactly when every row continues the chain and the anchored row is among them. */
    method Result() returns (v: Verdict)
      requires Valid()
      ensures v.ok <==> Sound(hash, anchor, fed, |fed|) && (anchor.Some? ==> Contains(fed, anchor.value.id))
      ensures v.checked <= |fed| && Sound(hash, anchor, fed, v.checked)
      ensures v.checked < |fed| ==>
                && Fault(hash, anchor, fed, v.checked).Some?
                && v.broken == Some(Break(fed[v.checked].id, Fault(hash, anchor, fed, v.checked).value))
      ensures v.checked == |fed| && !v.ok ==> anchor.Some? && v.broken == Some(Break(anchor.value.id, AnchorMismatch))
      ensures v.ok ==> v.broken.None?
    {
      if broken.Some? {
        return Verdict(false, checked, broken);
      }
      if anchor.Some? && !anchorSeen {
        return Verdict(false, checked, Some(Break(anchor.value.id, AnchorMismatch)));
      }
      v := Verdict(true, checked, None);
    }
  }

  function Flatten(batches: seq<seq<Row>>): seq<Row> {
    if batches == [] then [] else Flatten(batches[..|batches| - 1]) + batches[|batches| - 1]
  }

  /**
    A walk over the log in batches of any sizes, stopped at the first break: the verdict is the one
    on all rows, however they are cut.
   */
  method VerifyInBatches(hash: Hash, batches: seq<seq<Row>>, anchor: Option<Anchor>) returns (v: Verdict)
    ensures var rows := Flatten(batches);
            && (v.ok <==> Sound(hash, anchor, rows, |rows|) && (anchor.Some? ==> Contains(rows, anchor.value.id)))
            && v.checked <= |rows| && Sound(hash, anchor, rows, v.checked)
            && (v.checked < |rows| ==> Fault(hash, anchor, rows, v.checked).Some?)
            && (v.checked < |rows| ==>
                  v.broken == Some(Break(rows[v.checked].id, Fault(hash, anchor, rows, v.checked).value)))
            && (v.checked == |rows| && !v.ok ==> anchor.Some? && v.broken == Some(Break(anchor.value.id, AnchorMismatch)))
  {
    var verifier := new AuditChainVerifier(hash, anchor);
    var k := 0;
    while k < |batches|
      invariant k <= |batches| && fresh(verifier) && verifier.Valid()
      invariant verifier.fed == Flatten(batches[..k])
    {
      var ok := verifier.Feed(batches[k]);
      assert batches[..k + 1][..k] == batches[..k];
      k := k + 1;
      if !ok {
        ghost var unread := FlattenRest(batches, k);
        verifier.Ignore(unread);
        v := verifier.Result();
        return;
      }
    }
    assert batches[..k] == batches;
    v := verifier.Result();
  }

  lemma {:induction false} FlattenRest(batches: seq<seq<Row>>, k: nat) returns (rest: seq<Row>)
    requires k <= |batches|
    ensures Flatten(batches) == Flatten(batches[..k]) + rest
    decreases |batches|
  {
    if k == |batches| {
      assert batches[..k] == batches;
      rest := [];
    } else {
      var front := batches[..|batches| - 1];
      rest := FlattenRest(front, k);
      assert front[..k] == batches[..k];
      rest := rest + batches[|batches| - 1];
    }
  }

  lemma LaterRowsDoNotMatter(hash: Hash, anchor: Option<Anchor>, rows: seq<Row>, more: seq<Row>)
    ensures forall i :: 0 <= i < |rows| ==> Fault(hash, anchor, rows + more, i) == Fault(hash, anchor, rows, i)
  {
    hide ExpectedRowHashHex;
  }

  lemma SoundGrows(hash: Hash, anchor: Option<Anchor>, rows: seq<Row>, row: Row)
    requires Sound(hash, anchor, rows, |rows|)
    ensures Sound(hash, anchor, rows + [row], |rows|)
    ensures Fault(hash, anchor, rows + [row], |rows|).None? ==> Sound(hash, anchor, rows + [row], |rows| + 1)
  {
    hide Fault;
    LaterRowsDoNotMatter(hash, anchor, rows, [row]);
  }

  lemma VersionsKnown(hash: Hash, anchor: Option<Anchor>, rows: seq<Row>)
    requires Sound(hash, anchor, rows, |rows|)
    ensures rows != [] ==> rows[|rows| - 1].hashVersion == 1 || rows[|rows| - 1].hashVersion == 2
  {
    if rows != [] {
      assert Fault(hash, anchor, rows, |rows| - 1).None?;
    }
  }

  /** The checks on the next row, from the last version and hash alone, in the order they are made. */
  lemma FaultOfNext(hash: Hash, anchor: Option<Anchor>, rows: seq<Row>, row: Row)
    ensures
      var highest := if rows == [] then 0 else rows[|rows| - 1].hashVersion;
      var prev := PrevOf(rows, |rows|);
      (rows == [] || highest == 1 || highest == 2) ==>
        Fault(hash, anchor, rows + [row], |rows|) ==
          if (row.hashVersion != 1 && row.hashVersion != 2) || row.hashVersion < highest then Some(HashVersion)
          else if OrBlank(prev) != OrBlank(row.prevHashHex) then Some(PrevHash)
          else if ExpectedRowHashHex(hash, prev, row) != row.rowHashHex then Some(RowHash)
          else if anchor.Some? && row.id == anchor.value.id && row.rowHashHex != anchor.value.rowHashHex then Some(AnchorMismatch)
          else None
  {
    hide ExpectedRowHashHex;
    assert PrevOf(rows + [row], |rows|) == PrevOf(rows, |rows|);
  }

  lemma ContainsOneMore(rows: seq<Row>, row: Row)
    ensures forall id :: Contains(rows + [row], id) <==> Contains(rows, id) || row.id == id
  {
    var more := rows + [row];
    assert more[|rows|] == row;
    forall id | Contains(rows, id)
      ensures Contains(more, id)
    {
      var i :| 0 <= i < |rows| && rows[i].id == id;
      assert more[i].id == id;
    }
  }

  // ----- what the verifier reports

  /** A row changed in any audited column, its stored hashes left alone, is the first break: its hash is wrong. */
  lemma TamperingIsReported(hash: Hash, anchor: Option<Anchor>, rows: seq<Row>, i: nat, row: Row)
    requires i < |rows| && Sound(hash, anchor, rows, |rows|) && rows[i].hashVersion == 2 == row.hashVersion
    requires row.prevHashHex == rows[i].prevHashHex && row.rowHashHex == rows[i].rowHashHex && !SameAudited(row, rows[i])
    requires var m, n := Material(PrevOf(rows, i), rows[i]), Material(PrevOf(rows, i), row); hash(m) == hash(n) ==> m == n
    ensures var changed := rows[i := row];
            Sound(hash, anchor, changed, i) && Fault(hash, anchor, changed, i) == Some(RowHash)
  {
    hide ToHex, CanonicalV2;
    var changed := rows[i := row];
    assert changed[..i] == rows[..i];
    PrefixFaults(hash, anchor, rows, changed, i);
    assert Fault(hash, anchor, rows, i).None?;
    CanonicalV2IsInjective(row, rows[i]);
    var m, n := Material(PrevOf(rows, i), rows[i]), Material(PrevOf(rows, i), row);
    assert m != n by {
      var p := |PrevBytes(PrevOf(rows, i))|;
      assert m[p..] == CanonicalV2(rows[i]) && n[p..] == CanonicalV2(row);
    }
    HexRoundTrip(hash(m));
    HexRoundTrip(hash(n));
  }

  /** A row taken out is noticed at the row behind it, which links to nothing before it. */
  lemma RemovalIsReported(hash: Hash, anchor: Option<Anchor>, rows: seq<Row>, i: nat)
    requires i + 1 < |rows| && Sound(hash, anchor, rows, |rows|) && OrBlank(PrevOf(rows, i)) != rows[i].rowHashHex
    ensures var fewer := rows[..i] + rows[i + 1..];
            Sound(hash, anchor, fewer, i) && Fault(hash, anchor, fewer, i) == Some(PrevHash)
  {
    hide ExpectedRowHashHex;
    var fewer := rows[..i] + rows[i + 1..];
    assert fewer[..i] == rows[..i];
    PrefixFaults(hash, anchor, rows, fewer, i);
    assert Fault(hash, anchor, rows, i).None? && Fault(hash, anchor, rows, i + 1).None?;
    assert fewer[i] == rows[i + 1];
    if i > 0 {
      assert Fault(hash, anchor, rows, i - 1).None? && fewer[i - 1] == rows[i - 1];
    }
  }

  /** A row of an unknown version, or of the old one behind a new one, is reported as that, whatever else is wrong. */
  lemma DowngradeIsReported(hash: Hash, anchor: Option<Anchor>, rows: seq<Row>, i: nat)
    requires i < |rows|
    requires rows[i].hashVersion !in {1, 2} || (i > 0 && rows[i].hashVersion == 1 && rows[i - 1].hashVersion == 2)
    ensures Fault(hash, anchor, rows, i) == Some(HashVersion)
  {}

  /** With an anchor, rows cut off the end are noticed: no break, but the anchored row is missing. */
  lemma TruncationIsReported(hash: Hash, rows: seq<Row>, n: nat, k: nat)
    requires n <= k < |rows| && Sound(hash, None, rows, |rows|)
    requires forall i, j :: 0 <= i < j < |rows| ==> rows[i].id != rows[j].id
    ensures var anchor := Some(Anchor(rows[k].id, rows[k].rowHashHex));
            Sound(hash, anchor, rows[..n], n) && !Contains(rows[..n], rows[k].id) && Sound(hash, anchor, rows, |rows|)
  {
    hide ExpectedRowHashHex;
    var anchor := Some(Anchor(rows[k].id, rows[k].rowHashHex));
    forall i | 0 <= i < |rows|
      ensures Fault(hash, anchor, rows, i).None?
    {
      assert Fault(hash, None, rows, i).None?;
    }
    PrefixFaults(hash, anchor, rows, rows[..n], n);
  }

  /** And so is a log rewritten from some row on, with hashes that fit: the anchored row has another hash. */
  lemma RewritingIsReported(hash: Hash, anchor: Anchor, rows: seq<Row>, k: nat)
    requires k < |rows| && Sound(hash, None, rows, |rows|) && rows[k].id == anchor.id && rows[k].rowHashHex != anchor.rowHashHex
    requires forall i :: 0 <= i < k ==> rows[i].id != anchor.id
    ensures Sound(hash, Some(anchor), rows, k) && Fault(hash, Some(anchor), rows, k) == Some(AnchorMismatch)
  {
    hide ExpectedRowHashHex;
    assert Fault(hash, None, rows, k).None?;
    forall i | 0 <= i < k
      ensures Fault(hash, Some(anchor), rows, i).None?
    {
      assert Fault(hash, None, rows, i).None?;
    }
  }

  lemma PrefixFaults(hash: Hash, anchor: Option<Anchor>, rows: seq<Row>, other: seq<Row>, n: nat)
    requires n <= |rows| && n <= |other| && rows[..n] == other[..n] && Sound(hash, anchor, rows, |rows|)
    ensures Sound(hash, anchor, other, n)
  {
    hide Fault;
    LaterRowsDoNotMatter(hash, anchor, rows[..n], rows[n..]);
    LaterRowsDoNotMatter(hash, anchor, other[..n], other[n..]);
    assert rows[..n] + rows[n..] == rows && other[..n] + other[n..] == other;
    forall i | 0 <= i < n
      ensures Fault(hash, anchor, other, i).None?
    {
      assert Fault(hash, anchor, rows, i).None?;
    }
  }

  // ----- what an accepted chain pins down

  /** No two of the materials hashed at one position of the two chains collide. */
  ghost predicate CollisionFree(hash: Hash, a: seq<Row>, b: seq<Row>)
    requires |a| == |b| && Sound(hash, None, a, |a|) && Sound(hash, None, b, |b|)
  {
    forall i :: 0 <= i < |a| ==>
      assert Fault(hash, None, a, i).None? && Fault(hash, None, b, i).None?;
      var m, n := Material(PrevOf(a, i), a[i]), Material(PrevOf(b, i), b[i]);
      hash(m) == hash(n) ==> m == n
  }

  lemma RowHashIsHex(hash: Hash, rows: seq<Row>, i: nat)
    requires Digest(hash) && i < |rows| && Fault(hash, None, rows, i).None?
    ensures rows[i].rowHashHex == ToHex(hash(Material(PrevOf(rows, i), rows[i])))
    ensures |FromHex(rows[i].rowHashHex)| == 32 && rows[i].rowHashHex != ""
    ensures ToHex(FromHex(rows[i].rowHashHex)) == rows[i].rowHashHex
  {
    HexRoundTrip(hash(Material(PrevOf(rows, i), rows[i])));
  }

  ghost predicate Comparable(hash: Hash, a: seq<Row>, b: seq<Row>) {
    Digest(hash) && |a| == |b| && Sound(hash, None, a, |a|) && Sound(hash, None, b, |b|) && CollisionFree(hash, a, b)
  }

  lemma SameMaterial(hash: Hash, a: seq<Row>, b: seq<Row>, i: nat)
    requires Comparable(hash, a, b) && i < |a| && a[i].rowHashHex == b[i].rowHashHex
    ensures VersionFits(a, i) && VersionFits(b, i)
    ensures Material(PrevOf(a, i), a[i]) == Material(PrevOf(b, i), b[i])
  {
    hide ToHex, FromHex, Material, Digest;
    assert Fault(hash, None, a, i).None? && Fault(hash, None, b, i).None?;
    RowHashIsHex(hash, a, i);
    RowHashIsHex(hash, b, i);
    HexRoundTrip(hash(Material(PrevOf(a, i), a[i])));
    HexRoundTrip(hash(Material(PrevOf(b, i), b[i])));
  }

  lemma PrevIsDigest(hash: Hash, rows: seq<Row>, i: nat)
    requires Digest(hash) && Sound(hash, None, rows, |rows|) && i < |rows|
    ensures i == 0 ==> PrevBytes(PrevOf(rows, i)) == []
    ensures i > 0 ==> |PrevBytes(PrevOf(rows, i))| == 32 && ToHex(PrevBytes(PrevOf(rows, i))) == rows[i - 1].rowHashHex
  {
    if i > 0 {
      assert Fault(hash, None, rows, i - 1).None?;
      RowHashIsHex(hash, rows, i - 1);
    }
  }

  /** Equal hashes at one position: equal text there, and equal hashes one position before. */
  lemma OneBack(hash: Hash, a: seq<Row>, b: seq<Row>, i: nat)
    requires Comparable(hash, a, b) && i < |a| && a[i].rowHashHex == b[i].rowHashHex
    ensures VersionFits(a, i) && VersionFits(b, i) && Canonical(a[i]) == Canonical(b[i])
    ensures i > 0 ==> a[i - 1].rowHashHex == b[i - 1].rowHashHex
  {
    hide Canonical, ToHex, FromHex, Fault, CollisionFree;
    SameMaterial(hash, a, b, i);
    PrevIsDigest(hash, a, i);
    PrevIsDigest(hash, b, i);
    SameParts(PrevBytes(PrevOf(a, i)), Canonical(a[i]), PrevBytes(PrevOf(b, i)), Canonical(b[i]));
  }

  lemma SameParts(p: bytes, c: bytes, q: bytes, d: bytes)
    requires |p| == |q| && p + c == q + d
    ensures p == q && c == d
  {
    assert p == (p + c)[..|p|] && c == (p + c)[|p|..];
    assert q == (q + d)[..|q|] && d == (q + d)[|q|..];
  }

  /**
    The head pins the history: two chains the verifier accepts that have the same row hash at
    position `k` hash the same text at every position up to `k`, and agree on every hashed column
    of every row there that is in the v2 form in both, or in the v1 form in both with bars only in
    the context.
   */
  lemma {:induction false} HeadPinsHistory(hash: Hash, a: seq<Row>, b: seq<Row>, k: nat, i: nat)
    requires Comparable(hash, a, b)
    requires i <= k < |a| && a[k].rowHashHex == b[k].rowHashHex
    ensures a[i].rowHashHex == b[i].rowHashHex
    ensures VersionFits(a, i) && VersionFits(b, i) && Canonical(a[i]) == Canonical(b[i])
    ensures a[i].hashVersion == 2 && b[i].hashVersion == 2 ==> SameAudited(a[i], b[i])
    ensures a[i].hashVersion == 1 && b[i].hashVersion == 1 && BarsOnlyInContext(a[i]) && BarsOnlyInContext(b[i]) ==>
              SameV1Columns(a[i], b[i])
    decreases k - i
  {
    hide Fault, CollisionFree, Material, CanonicalV1, CanonicalV2;
    if i < k {
      HeadPinsHistory(hash, a, b, k, i + 1);
      OneBack(hash, a, b, i + 1);
    }
    OneBack(hash, a, b, i);
    if a[i].hashVersion == 2 && b[i].hashVersion == 2 {
      assert Canonical(a[i]) == CanonicalV2(a[i]) && Canonical(b[i]) == CanonicalV2(b[i]);
      CanonicalV2IsInjective(a[i], b[i]);
    }
    if a[i].hashVersion == 1 && b[i].hashVersion == 1 && BarsOnlyInContext(a[i]) && BarsOnlyInContext(b[i]) {
      V1PinsColumns(a[i], b[i]);
    }
  }

  // ----- the older v1 text

  /** The rows agree on the columns the v1 form hashes; it does not tell a missing target from an empty one. */
  predicate SameV1Columns(a: Row, b: Row) {
    && a.actionType == b.actionType && OrEmpty(a.targetType) == OrEmpty(b.targetType)
    && OrEmpty(a.targetId) == OrEmpty(b.targetId) && a.context == b.context && a.createdAt == b.createdAt
  }

  predicate NoBar(b: bytes) { forall i :: 0 <= i < |b| ==> b[i] != BAR }

  function Bars(b: bytes): nat { if b == [] then 0 else (if b[0] == BAR then 1 else 0) + Bars(b[1..]) }

  lemma {:induction false} BarsConcat(a: bytes, b: bytes)
    ensures Bars(a + b) == Bars(a) + Bars(b)
  {
    if a == [] {
      assert a + b == b;
    } else {
      BarsConcat(a[1..], b);
      assert (a + b)[1..] == a[1..] + b;
    }
  }

  lemma {:induction false} BarsZero(b: bytes)
    ensures Bars(b) == 0 <==> NoBar(b)
  {
    if b != [] {
      BarsZero(b[1..]);
      assert NoBar(b) <==> b[0] != BAR && NoBar(b[1..]);
    }
  }

  function Barred(x: bytes, rest: bytes): bytes { x + ([BAR] + rest) }

  lemma V1Nested(row: Row)
    ensures CanonicalV1(row) ==
              Barred(row.actionType, Barred(OrEmpty(row.targetType), Barred(OrEmpty(row.targetId), Barred(row.context, row.createdAt))))
  {
    var a, b, c, d, e := row.actionType, OrEmpty(row.targetType), OrEmpty(row.targetId), row.context, row.createdAt;
    FiveParts(a, b, c, d, e);
  }

  lemma FiveParts(a: bytes, b: bytes, c: bytes, d: bytes, e: bytes)
    ensures a + [BAR] + b + [BAR] + c + [BAR] + d + [BAR] + e == Barred(a, Barred(b, Barred(c, Barred(d, e))))
  {
    TwoParts(a + [BAR] + b + [BAR] + c, d, e);
    TwoParts(a + [BAR] + b, c, Barred(d, e));
    TwoParts(a, b, Barred(c, Barred(d, e)));
  }

  lemma TwoParts(a: bytes, b: bytes, rest: bytes)
    ensures a + [BAR] + b + [BAR] + rest == a + [BAR] + Barred(b, rest) && Barred(a + [BAR] + b, rest) == a + [BAR] + Barred(b, rest)
    ensures a + [BAR] + rest == Barred(a, rest) && Barred(a, Barred(b, rest)) == a + [BAR] + Barred(b, rest)
  {
    assert a + [BAR] + b + [BAR] + rest == a + [BAR] + Barred(b, rest);
    assert Barred(a + [BAR] + b, rest) == a + [BAR] + Barred(b, rest);
    assert a + [BAR] + rest == Barred(a, rest);
    assert Barred(a, Barred(b, rest)) == a + [BAR] + Barred(b, rest);
  }

  lemma BarsOfBarred(x: bytes, rest: bytes)
    ensures Bars(Barred(x, rest)) == Bars(x) + 1 + Bars(rest)
  {
    BarsConcat(x, [BAR] + rest);
    assert ([BAR] + rest)[1..] == rest;
  }

  /** A text up to its first bar can be read off in one way only. */
  lemma FirstBar(x: bytes, p: bytes, y: bytes, q: bytes)
    requires NoBar(x) && NoBar(y) && Barred(x, p) == Barred(y, q)
    ensures x == y && p == q
  {
    var s := Barred(x, p);
    assert s[|x|] == BAR && s[|y|] == BAR;
    assert forall i :: 0 <= i < |x| ==> s[i] == x[i];
    assert forall i :: 0 <= i < |y| ==> s[i] == y[i];
    assert |x| == |y|;
    assert x == s[..|x|] && y == s[..|y|];
    assert p == s[|x| + 1..] && q == s[|y| + 1..];
  }

  /** And so can what is behind its last bar. */
  lemma LastBar(p: bytes, x: bytes, q: bytes, y: bytes)
    requires NoBar(x) && NoBar(y) && Barred(p, x) == Barred(q, y)
    ensures p == q && x == y
  {
    var s := Barred(p, x);
    assert s[|p|] == BAR && s[|q|] == BAR;
    assert forall i :: |p| < i < |s| ==> s[i] == x[i - |p| - 1];
    assert forall i :: |q| < i < |s| ==> s[i] == y[i - |q| - 1];
    assert |p| == |q|;
    assert p == s[..|p|] && q == s[..|q|];
    assert x == s[|p| + 1..] && y == s[|q| + 1..];
  }

  /** No bar but perhaps in the context, which is free-form. */
  predicate BarsOnlyInContext(row: Row) {
    NoBar(row.actionType) && NoBar(OrEmpty(row.targetType)) && NoBar(OrEmpty(row.targetId)) && NoBar(row.createdAt)
  }

  /** Among rows whose other columns hold no bar, the v1 text pins the columns it hashes. */
  lemma V1PinsColumns(a: Row, b: Row)
    requires BarsOnlyInContext(a) && BarsOnlyInContext(b)
    ensures CanonicalV1(a) == CanonicalV1(b) <==> SameV1Columns(a, b)
  {
    hide Barred;
    V1Nested(a);
    V1Nested(b);
    if CanonicalV1(a) == CanonicalV1(b) {
      var x, y := Barred(a.context, a.createdAt), Barred(b.context, b.createdAt);
      FirstBar(a.actionType, Barred(OrEmpty(a.targetType), Barred(OrEmpty(a.targetId), x)),
               b.actionType, Barred(OrEmpty(b.targetType), Barred(OrEmpty(b.targetId), y)));
      FirstBar(OrEmpty(a.targetType), Barred(OrEmpty(a.targetId), x), OrEmpty(b.targetType), Barred(OrEmpty(b.targetId), y));
      FirstBar(OrEmpty(a.targetId), x, OrEmpty(b.targetId), y);
      LastBar(a.context, a.createdAt, b.context, b.createdAt);
    }
  }

  ghost predicate V1TextPins(a: Row) {
    forall b :: CanonicalV1(b) == CanonicalV1(a) ==> SameV1Columns(a, b)
  }

  predicate NoBarAnywhere(row: Row) { BarsOnlyInContext(row) && NoBar(row.context) }

  lemma BarsOfV1(row: Row)
    ensures Bars(CanonicalV1(row)) == 4 <==> NoBarAnywhere(row)
    ensures Bars(CanonicalV1(row)) >= 4
  {
    hide Barred, Bars, NoBar;
    var b, c, d, e := OrEmpty(row.targetType), OrEmpty(row.targetId), row.context, row.createdAt;
    V1Nested(row);
    BarsOfBarred(d, e);
    BarsOfBarred(c, Barred(d, e));
    BarsOfBarred(b, Barred(c, Barred(d, e)));
    BarsOfBarred(row.actionType, Barred(b, Barred(c, Barred(d, e))));
    BarsZero(row.actionType);
    BarsZero(b);
    BarsZero(c);
    BarsZero(d);
    BarsZero(e);
  }

  /**
    Exactly when the v1 text of a row pins its hashed columns against every other row: when none of
    them holds a bar.  The v2 text has no such condition.
   */
  lemma V1TextPinsIffNoBar(a: Row)
    ensures V1TextPins(a) <==> NoBarAnywhere(a)
  {
    hide CanonicalV1, NoBar;
    if NoBarAnywhere(a) {
      forall b | CanonicalV1(b) == CanonicalV1(a)
        ensures SameV1Columns(a, b)
      {
        BarsOfV1(a);
        BarsOfV1(b);
        V1PinsColumns(a, b);
      }
    } else {
      var b := CanonicalV1IsNotInjective(a);
    }
  }

  lemma SplitAtBar(x: bytes) returns (p: bytes, q: bytes)
    requires !NoBar(x)
    ensures x == Barred(p, q) && p != x && |q| < |x|
  {
    var i :| 0 <= i < |x| && x[i] == BAR;
    p, q := x[..i], x[i + 1..];
    assert x == Barred(p, q);
  }

  lemma BarredAssoc(p: bytes, q: bytes, rest: bytes)
    ensures Barred(Barred(p, q), rest) == Barred(p, Barred(q, rest))
  {
    assert Barred(Barred(p, q), rest) == Barred(p, Barred(q, rest));
  }

  /** The v1 text of any row with a bar in a hashed column is also that of a row with other hashed columns. */
  lemma CanonicalV1IsNotInjective(a: Row) returns (b: Row)
    requires !NoBarAnywhere(a)
    ensures CanonicalV1(b) == CanonicalV1(a) && !SameV1Columns(a, b)
  {
    hide Barred, NoBar;
    V1Nested(a);
    var tt, ti := OrEmpty(a.targetType), OrEmpty(a.targetId);
    if !NoBar(a.actionType) {
      var p, q := SplitAtBar(a.actionType);
      b := a.(actionType := p, targetType := Some(q), targetId := Some(tt), context := Barred(ti, a.context));
      BarredAssoc(p, q, Barred(tt, Barred(ti, Barred(a.context, a.createdAt))));
      BarredAssoc(ti, a.context, a.createdAt);
    } else if !NoBar(tt) {
      var p, q := SplitAtBar(tt);
      b := a.(targetType := Some(p), targetId := Some(q), context := Barred(ti, a.context));
      BarredAssoc(p, q, Barred(ti, Barred(a.context, a.createdAt)));
      BarredAssoc(ti, a.context, a.createdAt);
    } else if !NoBar(ti) {
      var p, q := SplitAtBar(ti);
      b := a.(targetId := Some(p), context := Barred(q, a.context));
      BarredAssoc(p, q, Barred(a.context, a.createdAt));
      BarredAssoc(q, a.context, a.createdAt);
    } else if !NoBar(a.context) {
      var p, q := SplitAtBar(a.context);
      b := a.(actionType := Barred(a.actionType, tt), targetType := Some(ti), targetId := Some(p), context := q);
      BarredAssoc(p, q, a.createdAt);
      BarredAssoc(a.actionType, tt, Barred(ti, Barred(p, Barred(q, a.createdAt))));
    } else {
      var p, q := SplitAtBar(a.createdAt);
      b := a.(context := Barred(a.context, p), createdAt := q);
      BarredAssoc(a.context, p, q);
    }
    V1Nested(b);
  }
}
