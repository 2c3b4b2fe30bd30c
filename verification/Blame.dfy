/**
  Line-by-line blame over a chain of file versions (apps/api/src/lib/blame.ts).  The diff library is
  any function that returns a valid edit script, or nothing when its time is up.
 */
module Blame {

  import opened Wrappers
  import Segments

  datatype Version = Version(id: string, content: string, author: Option<string>, createdAt: string)

  datatype BlameLine = BlameLine(text: string, versionId: string, author: Option<string>, createdAt: string)

  function LinesOf(v: Version): seq<string> { Segments.Lines(v.content) }

  // ----- edit scripts

  datatype Part = Added(lines: seq<string>) | Removed(lines: seq<string>) | Kept(lines: seq<string>)

  type Script = seq<Part>

  /** The old text: what the script removes and keeps. */
  function Before(script: Script): seq<string> {
    if script == [] then []
    else
      var last := script[|script| - 1];
      Before(script[..|script| - 1]) + if last.Added? then [] else last.lines
  }

  /** The new text: what it adds and keeps. */
  function After(script: Script): seq<string> {
    if script == [] then []
    else
      var last := script[|script| - 1];
      After(script[..|script| - 1]) + if last.Removed? then [] else last.lines
  }

  predicate Valid(script: Script, prev: seq<string>, next: seq<string>) { Before(script) == prev && After(script) == next }

  /** Where a line of the new text was in the old one, if it was kept. */
  function SourceOf(script: Script, q: nat): Option<nat>
    requires q < |After(script)|
  {
    var front := script[..|script| - 1];
    if q < |After(front)| then SourceOf(front, q)
    else if script[|script| - 1].Added? then None
    else Some(|Before(front)| + q - |After(front)|)
  }

  lemma {:induction false} SourceIsSameLine(script: Script, q: nat)
    requires q < |After(script)| && SourceOf(script, q).Some?
    ensures SourceOf(script, q).value < |Before(script)| && Before(script)[SourceOf(script, q).value] == After(script)[q]
  {
    if q < |After(script[..|script| - 1])| {
      SourceIsSameLine(script[..|script| - 1], q);
    }
  }

  // ----- who a line is from

  /** Every script leads from its version to the next. */
  ghost predicate Chain(versions: seq<Version>, scripts: seq<Script>) {
    |versions| == |scripts| + 1 && forall i :: 0 <= i < |scripts| ==> Valid(scripts[i], LinesOf(versions[i]), LinesOf(versions[i + 1]))
  }

  /** Follow a line back through the versions that kept it, to the one that added it. */
  ghost function Origin(versions: seq<Version>, scripts: seq<Script>, i: nat, q: nat): (j: nat)
    requires Chain(versions, scripts) && i < |versions| && q < |LinesOf(versions[i])|
    ensures j <= i
    decreases i
  {
    if i == 0 then 0
    else
      var source := SourceOf(scripts[i - 1], q);
      if source.None? then i
      else
        SourceIsSameLine(scripts[i - 1], q);
        Origin(versions, scripts, i - 1, source.value)
  }

  /** The version a line is from has the line, and so have all versions since. */
  lemma {:induction false} OriginHasTheLine(versions: seq<Version>, scripts: seq<Script>, i: nat, q: nat, k: nat)
    requires Chain(versions, scripts) && i < |versions| && q < |LinesOf(versions[i])|
    requires Origin(versions, scripts, i, q) <= k <= i
    ensures Segments.Lines(versions[i].content)[q] in Segments.Lines(versions[k].content)
    decreases i
  {
    hide SourceOf, Before, After;
    if k < i {
      SourceIsSameLine(scripts[i - 1], q);
      OriginHasTheLine(versions, scripts, i - 1, SourceOf(scripts[i - 1], q).value, k);
    }
  }

  function Attributed(text: string, v: Version): BlameLine { BlameLine(text, v.id, v.author, v.createdAt) }

  ghost predicate BlamesVersion(current: seq<BlameLine>, versions: seq<Version>, scripts: seq<Script>, i: nat)
    requires Chain(versions, scripts) && i < |versions|
  {
    && |current| == |LinesOf(versions[i])|
    && forall q :: 0 <= q < |current| ==> current[q] == Attributed(LinesOf(versions[i])[q], versions[Origin(versions, scripts, i, q)])
  }

  /** One entry per line of the content, with the id, author and time of the version the line is from. */
  ghost predicate BlamesContent(current: seq<BlameLine>, versions: seq<Version>, scripts: seq<Script>, i: nat)
    requires Chain(versions, scripts) && i < |versions|
  {
    var lines := Segments.Lines(versions[i].content);
    && |current| == |lines|
    && forall q :: 0 <= q < |current| ==>
         var v := versions[Origin(versions, scripts, i, q)];
         current[q].text == lines[q] && current[q].versionId == v.id && current[q].author == v.author && current[q].createdAt == v.createdAt
  }

  lemma BlamedByName(current: seq<BlameLine>, versions: seq<Version>, scripts: seq<Script>, i: nat)
    requires Chain(versions, scripts) && i < |versions| && BlamesVersion(current, versions, scripts, i)
    ensures BlamesContent(current, versions, scripts, i)
  {}

  /** One entry of the next version: kept from the current one, or added now. */
  ghost predicate Carries(out: seq<BlameLine>, current: seq<BlameLine>, script: Script, v: Version) {
    && |out| == |After(script)|
    && forall q :: 0 <= q < |out| ==>
         match SourceOf(script, q)
         case None => out[q] == Attributed(After(script)[q], v)
         case Some(p) => p < |current| && out[q] == current[p]
  }

  method AddLines(out: seq<BlameLine>, lines: seq<string>, v: Version) returns (r: seq<BlameLine>)
    ensures r == out + Additions(lines, v)
  {
    r := out;
    for k := 0 to |lines|
      invariant r == out + Additions(lines, v)[..k]
    {
      r := r + [Attributed(lines[k], v)];
    }
  }

  function Additions(lines: seq<string>, v: Version): seq<BlameLine> {
    seq(|lines|, k requires 0 <= k < |lines| => Attributed(lines[k], v))
  }

  method KeepLines(out: seq<BlameLine>, current: seq<BlameLine>, cursor: nat, count: nat) returns (r: seq<BlameLine>)
    requires cursor + count <= |current|
    ensures r == out + current[cursor..cursor + count]
  {
    r := out;
    for k := 0 to count
      invariant r == out + current[cursor..cursor + k]
    {
      r := r + [current[cursor + k]];
    }
  }

  /** The loop over the parts: one edit script applied to the blame of the version before. */
  method ApplyScript(current: seq<BlameLine>, script: Script, v: Version) returns (out: seq<BlameLine>)
    requires |current| == |Before(script)|
    ensures Carries(out, current, script, v)
  {
    hide Carries, Before, Additions;
    out := [];
    EmptyScript(current, v);
    assert script[..0] == [];
    var cursor := 0;
    for i := 0 to |script|
      invariant cursor == |Before(script[..i])| && Carries(out, current, script[..i], v)
    {
      var part := script[i];
      assert script[..i + 1] == script[..i] + [part];
      CursorInBounds(script, i + 1);
      BeforeOneMore(script[..i], part);
      OnePartMore(out, current, script[..i], part, v);
      match part {
        case Added(lines) =>
          out := AddLines(out, lines, v);
        case Removed(lines) =>
          cursor := cursor + |lines|;
        case Kept(lines) =>
          out := KeepLines(out, current, cursor, |lines|);
          cursor := cursor + |lines|;
      }
    }
    assert script[..|script|] == script;
  }

  lemma EmptyScript(current: seq<BlameLine>, v: Version)
    ensures Carries([], current, [], v) && Before([]) == []
  {}

  lemma BeforeOneMore(front: Script, part: Part)
    ensures Before(front + [part]) == Before(front) + if part.Added? then [] else part.lines
  {
    assert (front + [part])[..|front|] == front;
  }

  lemma {:induction false} CursorInBounds(script: Script, i: nat)
    requires i <= |script|
    ensures |Before(script[..i])| <= |Before(script)|
    decreases |script|
  {
    if i < |script| {
      assert script[..|script| - 1][..i] == script[..i];
      CursorInBounds(script[..|script| - 1], i);
    } else {
      assert script[..i] == script;
    }
  }

  /** What the parts so far carry, and what one more part adds to it. */
  lemma OnePartMore(sofar: seq<BlameLine>, current: seq<BlameLine>, front: Script, part: Part, v: Version)
    requires Carries(sofar, current, front, v) && |Before(front + [part])| <= |current|
    ensures part.Added? ==> Carries(sofar + Additions(part.lines, v), current, front + [part], v)
    ensures part.Removed? ==> Carries(sofar, current, front + [part], v)
    ensures part.Kept? ==> |Before(front)| + |part.lines| <= |current|
    ensures part.Kept? ==>
              Carries(sofar + current[|Before(front)|..|Before(front)| + |part.lines|], current, front + [part], v)
  {
    BeforeOneMore(front, part);
    hide Before;
    var longer := front + [part];
    assert longer[..|longer| - 1] == front && longer[|longer| - 1] == part;
    assert forall q :: 0 <= q < |sofar| ==> SourceOf(longer, q) == SourceOf(front, q) && After(longer)[q] == After(front)[q];
  }

  lemma CarriedIsBlame(out: seq<BlameLine>, current: seq<BlameLine>, versions: seq<Version>, scripts: seq<Script>, i: nat)
    requires Chain(versions, scripts) && i < |scripts|
    requires BlamesVersion(current, versions, scripts, i) && Carries(out, current, scripts[i], versions[i + 1])
    ensures BlamesVersion(out, versions, scripts, i + 1)
  {
    hide LinesOf, SourceOf;
    forall q | 0 <= q < |out|
      ensures out[q] == Attributed(LinesOf(versions[i + 1])[q], versions[Origin(versions, scripts, i + 1, q)])
    {
      if SourceOf(scripts[i], q).Some? {
        SourceIsSameLine(scripts[i], q);
      }
    }
  }

  /** The scripts the diff returned, up to its first timeout. */
  function Returned(diffs: seq<Option<Script>>): seq<Script>
    requires forall i :: 0 <= i < |diffs| ==> diffs[i].Some?
  {
    seq(|diffs|, i requires 0 <= i < |diffs| => diffs[i].value)
  }

  /**
    `computeBlame`: one entry per line of the newest version, with its text and the version it is
    from; nothing when a diff ran out of time.
   */
  method ComputeBlame(versions: seq<Version>, diffs: seq<Option<Script>>) returns (r: Option<seq<BlameLine>>)
    requires |versions| > 0 ==> |diffs| == |versions| - 1
    requires forall i :: 0 <= i < |diffs| && i + 1 < |versions| && diffs[i].Some? ==>
               Valid(diffs[i].value, LinesOf(versions[i]), LinesOf(versions[i + 1]))
    ensures versions == [] ==> r == Some([])
    ensures versions != [] ==> (r.Some? <==> forall i :: 0 <= i < |diffs| ==> diffs[i].Some?)
    ensures versions != [] && r.Some? ==>
              Chain(versions, Returned(diffs)) && BlamesContent(r.value, versions, Returned(diffs), |versions| - 1)
  {
    hide LinesOf, SourceOf, Before, After;
    if |versions| == 0 {
      return Some([]);
    }
    var first := LinesOf(versions[0]);
    var current := seq(|first|, i requires 0 <= i < |first| => Attributed(first[i], versions[0]));
    for i := 1 to |versions|
      invariant forall k :: 0 <= k < i - 1 ==> diffs[k].Some?
      invariant Chain(versions[..i], Returned(diffs[..i - 1]))
      invariant BlamesVersion(current, versions[..i], Returned(diffs[..i - 1]), i - 1)
    {
      if diffs[i - 1].None? {
        return None;
      }
      ghost var vs, ss := versions[..i + 1], Returned(diffs[..i]);
      LongerChain(versions[..i], Returned(diffs[..i - 1]), vs, ss, current, i - 1);
      var out := ApplyScript(current, diffs[i - 1].value, versions[i]);
      CarriedIsBlame(out, current, vs, ss, i - 1);
      current := out;
    }
    assert versions[..|versions|] == versions && diffs[..|versions| - 1] == diffs;
    BlamedByName(current, versions, Returned(diffs), |versions| - 1);
    r := Some(current);
  }

  lemma LongerChain(vs: seq<Version>, ss: seq<Script>, vs': seq<Version>, ss': seq<Script>, current: seq<BlameLine>, i: nat)
    requires Chain(vs, ss) && Chain(vs', ss') && vs <= vs' && ss <= ss' && i < |vs|
    requires BlamesVersion(current, vs, ss, i)
    ensures BlamesVersion(current, vs', ss', i)
  {
    hide LinesOf;
    forall q | 0 <= q < |current|
      ensures Origin(vs, ss, i, q) == Origin(vs', ss', i, q)
    {
      OriginInLonger(vs, ss, vs', ss', i, q);
    }
  }

  lemma {:induction false} OriginInLonger(vs: seq<Version>, ss: seq<Script>, vs': seq<Version>, ss': seq<Script>, i: nat, q: nat)
    requires Chain(vs, ss) && Chain(vs', ss') && vs <= vs' && ss <= ss' && i < |vs| && q < |LinesOf(vs[i])|
    ensures Origin(vs, ss, i, q) == Origin(vs', ss', i, q)
    decreases i
  {
    hide LinesOf;
    if i > 0 && SourceOf(ss[i - 1], q).Some? {
      SourceIsSameLine(ss[i - 1], q);
      OriginInLonger(vs, ss, vs', ss', i - 1, SourceOf(ss[i - 1], q).value);
    }
  }
}
