/** Parsing of cron expressions (packages/shared-types/src/cron5.ts), for the matcher in module Cron5. */
module Cron5Parse {

  import opened Wrappers
  import opened Text
  import opened Cron5

  /** `s.split(c)`: always at least one piece. */
  function Split(s: string, c: char): (pieces: seq<string>)
    ensures pieces != []
  {
    if s == "" then [""]
    else
      var rest := Split(s[1..], c);
      if s[0] == c then [""] + rest else [[s[0]] + rest[0]] + rest[1..]
  }

  // ----- what one part of a field denotes

  function Term(start: int, step: int, n: int): int { start + n * step }

  /** The part is `start/step`, where the start may be a star. */
  predicate Stepped(part: string) {
    var pieces := Split(part, '/');
    |pieces| == 2 && (pieces[0] == "*" || IsNumber(pieces[0])) && IsNumber(pieces[1])
  }

  function Start(part: string, lo: int): int
    requires Stepped(part)
  {
    var first := Split(part, '/')[0];
    if first == "*" then lo else NumberOf(first)
  }

  function Stride(part: string): nat
    requires Stepped(part)
  {
    NumberOf(Split(part, '/')[1])
  }

  predicate WellFormedPart(part: string, lo: int, hi: int) {
    if Stepped(part) then Stride(part) > 0 && lo <= Start(part, lo) <= hi
    else IsNumber(part) && lo <= NumberOf(part) <= hi
  }

  ghost predicate Progression(start: int, step: int, v: int) {
    exists n :: n >= 0 && v == Term(start, step, n)
  }

  /** The values a part stands for: one number, or an arithmetic progression up to the field's maximum. */
  ghost predicate Denotes(part: string, lo: int, hi: int, v: int) {
    if Stepped(part) then v <= hi && Progression(Start(part, lo), Stride(part), v)
    else v == NumberOf(part)
  }

  ghost predicate WellFormed(parts: seq<string>, lo: int, hi: int) {
    forall i :: 0 <= i < |parts| ==> WellFormedPart(parts[i], lo, hi)
  }

  ghost predicate InSome(parts: seq<string>, lo: int, hi: int, v: int) {
    exists i :: 0 <= i < |parts| && Denotes(parts[i], lo, hi, v)
  }

  ghost predicate Acceptable(raw: string, lo: int, hi: int) {
    raw == "*" || WellFormed(Split(raw, ','), lo, hi)
  }

  /** What the text of a field says: anything, or the listed values that its parts denote. */
  ghost predicate Says(raw: string, lo: int, hi: int, field: Field) {
    if raw == "*" then field == None
    else
      && field.Some? && Listing(field, lo, hi)
      && forall v :: v in field.value <==> InSome(Split(raw, ','), lo, hi, v)
  }

  /**
    `parseField`: a lone star allows everything; otherwise the values are exactly those some part
    denotes, in increasing order, and the field is refused when any part is.
   */
  method ParseField(raw: string, lo: int, hi: int) returns (r: Result<Field>)
    requires lo <= hi
    ensures r.Ok? <==> Acceptable(raw, lo, hi)
    ensures r.Ok? ==> Says(raw, lo, hi, r.value)
  {
    hide Denotes, WellFormedPart, Split;
    if raw == "*" {
      return Ok(None);
    }
    var parts := Split(raw, ',');
    var values: set<int> := {};
    var k := 0;
    while k < |parts|
      invariant 0 <= k <= |parts| && WellFormed(parts[..k], lo, hi)
      invariant forall v :: v in values <==> InSome(parts[..k], lo, hi, v)
      invariant forall v :: v in values ==> lo <= v <= hi
      invariant k > 0 ==> values != {}
    {
      var more := ParsePart(parts[k], lo, hi);
      if more.None? {
        return Error;
      }
      OneMorePart(parts, k, lo, hi);
      values := values + more.value;
      k := k + 1;
    }
    assert parts[..k] == parts;
    var sorted := Sorted(values, lo, hi);
    assert forall i :: 0 <= i < |sorted| ==> sorted[i] in sorted;
    r := Ok(Some(sorted));
  }

  lemma OneMorePart(parts: seq<string>, k: nat, lo: int, hi: int)
    requires k < |parts| && WellFormed(parts[..k], lo, hi) && WellFormedPart(parts[k], lo, hi)
    ensures WellFormed(parts[..k + 1], lo, hi)
    ensures forall v :: InSome(parts[..k + 1], lo, hi, v) <==> InSome(parts[..k], lo, hi, v) || Denotes(parts[k], lo, hi, v)
  {
    hide Denotes, WellFormedPart;
    var before, after := parts[..k], parts[..k + 1];
    assert after[k] == parts[k] && forall i :: 0 <= i < k ==> after[i] == before[i];
    forall v
      ensures InSome(after, lo, hi, v) <==> InSome(before, lo, hi, v) || Denotes(parts[k], lo, hi, v)
    {
      if InSome(before, lo, hi, v) {
        var i :| 0 <= i < |before| && Denotes(before[i], lo, hi, v);
        assert Denotes(after[i], lo, hi, v);
      }
    }
  }

  method ParsePart(part: string, lo: int, hi: int) returns (r: Option<set<int>>)
    requires lo <= hi
    ensures r.Some? <==> WellFormedPart(part, lo, hi)
    ensures r.Some? ==> r.value != {} && forall v :: v in r.value <==> Denotes(part, lo, hi, v)
    ensures r.Some? ==> forall v :: v in r.value ==> lo <= v <= hi
  {
    hide Split, IsNumber, NumberOf, Progression;
    var pieces := Split(part, '/');
    if |pieces| == 2 && (pieces[0] == "*" || IsNumber(pieces[0])) && IsNumber(pieces[1]) {
      var start := if pieces[0] == "*" then lo else NumberOf(pieces[0]);
      var step := NumberOf(pieces[1]);
      if step <= 0 || start < lo || start > hi {
        return None;
      }
      var values := StepThrough(start, step, hi);
      return Some(values);
    }
    if !IsNumber(part) {
      return None;
    }
    var value := NumberOf(part);
    if value < lo || value > hi {
      return None;
    }
    r := Some({value});
  }

  method StepThrough(start: int, step: int, hi: int) returns (values: set<int>)
    requires step > 0
    ensures forall v :: v in values <==> v <= hi && Progression(start, step, v)
    ensures forall v :: v in values ==> start <= v
    ensures start <= hi ==> start in values
  {
    values := {};
    var v := start;
    ghost var n := 0;
    while v <= hi
      invariant n >= 0 && v == Term(start, step, n) && v >= start
      invariant forall w :: w in values ==> start <= w <= hi && Progression(start, step, w)
      invariant forall m :: 0 <= m < n ==> Term(start, step, m) in values
      invariant n > 0 ==> start in values
      decreases hi - v
    {
      values := values + {v};
      v := v + step;
      n := n + 1;
    }
    forall w | w <= hi && Progression(start, step, w)
      ensures w in values
    {
      var m :| m >= 0 && w == Term(start, step, m);
      if m >= n {
        TermsGrow(start, step, n, m);
      }
    }
  }

  lemma TermsGrow(start: int, step: int, n: int, m: int)
    requires step > 0 && n <= m
    ensures Term(start, step, n) <= Term(start, step, m)
  {
    assert (m - n) * step >= 0;
  }

  /** The members of a set of numbers between two bounds, in increasing order. */
  method Sorted(values: set<int>, lo: int, hi: int) returns (s: seq<int>)
    requires forall v :: v in values ==> lo <= v <= hi
    ensures forall v :: v in s <==> v in values
    ensures forall i, j :: 0 <= i < j < |s| ==> s[i] < s[j]
  {
    s := [];
    var v := lo;
    while v <= hi
      invariant forall w :: w in s <==> w in values && w < v
      invariant forall i :: 0 <= i < |s| ==> s[i] < v
      invariant forall i, j :: 0 <= i < j < |s| ==> s[i] < s[j]
      decreases hi - v
    {
      if v in values {
        s := s + [v];
      }
      v := v + 1;
    }
  }

  // ----- the grammar, the other way round

  /** A part as it is written: a number, or a number or a star with a step. */
  datatype Part = One(number: string) | Every(start: Option<string>, step: string)

  function Print(part: Part): string {
    match part
    case One(number) => number
    case Every(start, step) => (if start.Some? then start.value else "*") + "/" + step
  }

  function PrintAll(parts: seq<Part>): string
    requires parts != []
  {
    if |parts| == 1 then Print(parts[0]) else Print(parts[0]) + "," + PrintAll(parts[1..])
  }

  predicate Digits(part: Part) {
    match part
    case One(number) => IsNumber(number)
    case Every(start, step) => (start.Some? ==> IsNumber(start.value)) && IsNumber(step)
  }

  /** Within the field: a positive step, and a number or start between the bounds. */
  predicate InRange(part: Part, lo: int, hi: int) {
    match part
    case One(number) => lo <= NumberOf(number) <= hi
    case Every(start, step) => NumberOf(step) > 0 && (start.Some? ==> lo <= NumberOf(start.value) <= hi)
  }

  /** The number; or every step-th value from the start, or from the least one, up to the greatest. */
  ghost predicate Means(part: Part, lo: int, hi: int, v: int) {
    match part
    case One(number) => v == NumberOf(number)
    case Every(start, step) =>
      v <= hi && Progression(if start.Some? then NumberOf(start.value) else lo, NumberOf(step), v)
  }

  predicate Without(s: string, c: char) { forall i :: 0 <= i < |s| ==> s[i] != c }

  lemma {:induction false} SplitNone(s: string, c: char)
    requires Without(s, c)
    ensures Split(s, c) == [s]
  {
    if s != "" {
      SplitNone(s[1..], c);
      assert [s[0]] + s[1..] == s;
    }
  }

  lemma {:induction false} SplitFirst(s: string, c: char, rest: string)
    requires Without(s, c)
    ensures Split(s + [c] + rest, c) == [s] + Split(rest, c)
  {
    var text := s + [c] + rest;
    if s == "" {
      assert text[0] == c && text[1..] == rest;
    } else {
      SplitFirst(s[1..], c, rest);
      assert text[0] == s[0] && text[1..] == s[1..] + [c] + rest;
      assert [s[0]] + s[1..] == s;
    }
  }

  lemma PrintedPart(part: Part, lo: int, hi: int, v: int)
    requires Digits(part) && lo <= hi
    ensures WellFormedPart(Print(part), lo, hi) <==> InRange(part, lo, hi)
    ensures Denotes(Print(part), lo, hi, v) <==> Means(part, lo, hi, v)
    ensures Without(Print(part), ',')
  {
    hide NumberOf, Split;
    var text := Print(part);
    match part
    case One(number) => SplitNone(number, '/');
    case Every(start, step) =>
      var first := if start.Some? then start.value else "*";
      assert text == first + ['/'] + step;
      SplitFirst(first, '/', step);
      SplitNone(step, '/');
      assert Split(text, '/') == [first, step];
      assert start.Some? ==> IsDigit(first[0]);
  }

  lemma {:induction false} PrintedParts(parts: seq<Part>, lo: int, hi: int)
    requires parts != [] && lo <= hi && forall i :: 0 <= i < |parts| ==> Digits(parts[i])
    ensures var pieces := Split(PrintAll(parts), ',');
            |pieces| == |parts| && forall i :: 0 <= i < |parts| ==> pieces[i] == Print(parts[i])
  {
    hide Split, Print, Digits;
    PrintedPart(parts[0], lo, hi, 0);
    if |parts| == 1 {
      SplitNone(Print(parts[0]), ',');
    } else {
      PrintedParts(parts[1..], lo, hi);
      SplitFirst(Print(parts[0]), ',', PrintAll(parts[1..]));
      assert PrintAll(parts) == Print(parts[0]) + [','] + PrintAll(parts[1..]);
    }
  }

  /**
    Whatever list of parts is written down, it is accepted exactly when all of them are within the
    field, and then it says exactly what they mean.
   */
  lemma WrittenFieldIsRead(parts: seq<Part>, lo: int, hi: int, field: Field, v: int)
    requires parts != [] && lo <= hi && forall i :: 0 <= i < |parts| ==> Digits(parts[i])
    ensures Acceptable(PrintAll(parts), lo, hi) <==> forall i :: 0 <= i < |parts| ==> InRange(parts[i], lo, hi)
    ensures Says(PrintAll(parts), lo, hi, field) ==>
              field.Some? && (v in field.value <==> exists i :: 0 <= i < |parts| && Means(parts[i], lo, hi, v))
  {
    hide Split, Print, Digits, WellFormedPart, InRange, Denotes, Means, Listing;
    PrintedParts(parts, lo, hi);
    NotAStar(parts, lo, hi);
    var pieces := Split(PrintAll(parts), ',');
    forall i | 0 <= i < |parts|
      ensures WellFormedPart(pieces[i], lo, hi) <==> InRange(parts[i], lo, hi)
      ensures Denotes(pieces[i], lo, hi, v) <==> Means(parts[i], lo, hi, v)
    {
      PrintedPart(parts[i], lo, hi, v);
    }
  }

  lemma NotAStar(parts: seq<Part>, lo: int, hi: int)
    requires parts != [] && lo <= hi && forall i :: 0 <= i < |parts| ==> Digits(parts[i])
    ensures PrintAll(parts) != "*"
  {
    hide Split;
    PrintedParts(parts, lo, hi);
    SplitNone("*", ',');
    match parts[0]
    case One(number) => assert IsDigit(number[0]);
    case Every(start, step) => assert |Print(parts[0])| >= 3;
  }

  /** And nothing else is accepted: every accepted part is one that can be written so. */
  lemma AcceptedIsWritten(text: string, lo: int, hi: int) returns (part: Part)
    requires WellFormedPart(text, lo, hi)
    ensures Digits(part) && Print(part) == text
  {
    hide NumberOf;
    if Stepped(text) {
      var pieces := Split(text, '/');
      part := Every(if pieces[0] == "*" then None else Some(pieces[0]), pieces[1]);
      JoinsBack(text, '/');
    } else {
      part := One(text);
    }
  }

  lemma {:induction false} JoinsBack(s: string, c: char)
    ensures |Split(s, c)| == 1 ==> s == Split(s, c)[0]
    ensures |Split(s, c)| == 2 ==> s == Split(s, c)[0] + [c] + Split(s, c)[1]
  {
    if s != "" {
      JoinsBack(s[1..], c);
      assert s == [s[0]] + s[1..];
    }
  }

  predicate StartsWithStar(s: string) { s != "" && s[0] == '*' }

  /** The pieces of the trimmed text between its runs of white space. */
  function Fields(text: string): seq<string> { SplitAtSpaces(Trim(text)) }

  /** `parseCron5`: what it accepts, and what the expression it returns then says; the matcher can use it. */
  method ParseCron5(text: string) returns (r: Result<Expression>)
    ensures var fields := Fields(text);
            r.Ok? <==>
              && |fields| == 5
              && Acceptable(fields[0], 0, 59) && Acceptable(fields[1], 0, 23) && Acceptable(fields[2], 1, 31)
              && Acceptable(fields[3], 1, 12) && Acceptable(fields[4], 0, 6)
    ensures var fields := Fields(text);
            r.Ok? ==>
              && Says(fields[0], 0, 59, r.value.minute) && Says(fields[1], 0, 23, r.value.hour)
              && Says(fields[2], 1, 31, r.value.dayOfMonth) && Says(fields[3], 1, 12, r.value.month)
              && Says(fields[4], 0, 6, r.value.dayOfWeek)
    ensures var fields := Fields(text);
            r.Ok? ==>
              && Parsed(r.value)
              && (Mixed(r.value) <==> fields[2] != "*" && fields[4] != "*" && (StartsWithStar(fields[2]) || StartsWithStar(fields[4])))
  {
    hide Acceptable, WellFormed, InSome, Split, Fields;
    var fields := Fields(text);
    if |fields| != 5 {
      return Error;
    }
    var minute := ParseField(fields[0], 0, 59);
    var hour := ParseField(fields[1], 0, 23);
    var dayOfMonth := ParseField(fields[2], 1, 31);
    var month := ParseField(fields[3], 1, 12);
    var dayOfWeek := ParseField(fields[4], 0, 6);
    if minute.Error? || hour.Error? || dayOfMonth.Error? || month.Error? || dayOfWeek.Error? {
      return Error;
    }
    r := Ok(Expression(minute.value, hour.value, dayOfMonth.value, month.value, dayOfWeek.value,
                       StartsWithStar(fields[2]), StartsWithStar(fields[4])));
  }
}
