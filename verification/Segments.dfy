/**
  The managed segment of a config file: finding it, splicing a new one in
  (packages/shared-config/src/admins-config.ts), and the lines it is made of.
 */
module Segments {

  import opened Wrappers

  function BeginMarker(): string { "//SQUAD-PANEL BEGIN" }

  function EndMarker(): string { "//SQUAD-PANEL END" }

  function BeginLine(): string { BeginMarker() + " — не редактировать вручную" }

  function NewLine(): string { "\r\n" }

  // ----- searching

  predicate Occurs(s: string, pattern: string, i: nat) {
    i + |pattern| <= |s| && s[i..i + |pattern|] == pattern
  }

  /** `s.indexOf(pattern, from)`. */
  function IndexOf(s: string, pattern: string, from: nat): (r: Option<nat>)
    ensures r.Some? ==> from <= r.value && Occurs(s, pattern, r.value) && forall j | from <= j < r.value :: !Occurs(s, pattern, j)
    ensures r.None? ==> forall j | from <= j :: !Occurs(s, pattern, j)
    decreases |s| - from
  {
    if from + |pattern| > |s| then None
    else if Occurs(s, pattern, from) then Some(from)
    else if from < |s| then IndexOf(s, pattern, from + 1)
    else None
  }

  lemma FirstIndex(s: string, pattern: string, from: nat, i: nat)
    requires from <= i && Occurs(s, pattern, i) && forall j | from <= j < i :: !Occurs(s, pattern, j)
    ensures IndexOf(s, pattern, from) == Some(i)
  {}

  // ----- find and splice

  datatype Located = Located(segment: string, start: nat, end: nat)

  /** `findManagedSegment`: a begin marker without an end marker owns the rest of the file. */
  function Find(content: string): (r: Option<Located>)
    ensures r.Some? ==> r.value.start <= r.value.end <= |content| && r.value.segment == content[r.value.start..r.value.end]
  {
    var begin := IndexOf(content, BeginMarker(), 0);
    if begin.None? then None
    else
      var end := IndexOf(content, EndMarker(), begin.value);
      var tail := if end.None? then |content| else end.value + |EndMarker()|;
      Some(Located(content[begin.value..tail], begin.value, tail))
  }

  /** `spliceManagedSegment`. */
  function Splice(content: string, body: string): string {
    var located := Find(content);
    if located.Some? then content[..located.value.start] + body + content[located.value.end..]
    else if content == "" then body + NewLine()
    else body + NewLine() + NewLine() + content
  }

  ghost predicate FirstAt(s: string, pattern: string, from: nat, i: nat) {
    from <= i && Occurs(s, pattern, i) && forall j :: from <= j < i ==> !Occurs(s, pattern, j)
  }

  /** What a splice leaves of any file: all of it in front when there was no segment, and everything outside when there was one. */
  lemma SpliceKeepsTheRest(content: string, body: string, i: nat, k: nat)
    ensures (forall j: nat :: !Occurs(content, "//SQUAD-PANEL BEGIN", j)) ==>
              Splice(content, body) == if content == "" then body + "\r\n" else body + "\r\n\r\n" + content
    ensures FirstAt(content, "//SQUAD-PANEL BEGIN", 0, i) && FirstAt(content, "//SQUAD-PANEL END", i, k) ==>
              k + 17 <= |content| && Splice(content, body) == content[..i] + body + content[k + 17..]
    ensures FirstAt(content, "//SQUAD-PANEL BEGIN", 0, i) && (forall j: nat :: i <= j ==> !Occurs(content, "//SQUAD-PANEL END", j)) ==>
              Splice(content, body) == content[..i] + body
  {
    hide IndexOf, Occurs;
    assert |EndMarker()| == 17 && NewLine() + NewLine() == "\r\n\r\n";
    if forall j: nat :: !Occurs(content, BeginMarker(), j) {
      assert IndexOf(content, BeginMarker(), 0).None?;
      assert body + NewLine() + NewLine() + content == body + (NewLine() + NewLine()) + content;
    }
    if FirstAt(content, BeginMarker(), 0, i) {
      FirstIndex(content, BeginMarker(), 0, i);
      if FirstAt(content, EndMarker(), i, k) {
        FirstIndex(content, EndMarker(), i, k);
        EndsWithin(content, k);
      }
      if forall j: nat :: i <= j ==> !Occurs(content, EndMarker(), j) {
        assert IndexOf(content, EndMarker(), i).None?;
      }
    }
  }

  lemma EndsWithin(content: string, k: nat)
    requires Occurs(content, EndMarker(), k)
    ensures k + 17 <= |content|
  {}

  /** A segment body: it starts with the begin marker, and its first end marker is its end. */
  predicate Managed(body: string) {
    && BeginMarker() <= body
    && |EndMarker()| <= |body|
    && IndexOf(body, EndMarker(), 0) == Some(|body| - |EndMarker()|)
  }

  /** What lies before and after the segment. */
  datatype Outside = Outside(before: string, after: string)

  function Around(content: string): Outside {
    var located := Find(content);
    if located.Some? then Outside(content[..located.value.start], content[located.value.end..])
    else if content == "" then Outside("", NewLine())
    else Outside("", NewLine() + NewLine() + content)
  }

  lemma SpliceIsAround(content: string, body: string)
    ensures Splice(content, body) == Around(content).before + body + Around(content).after
  {
    hide BeginMarker, EndMarker, NewLine, Find, IndexOf;
    if Find(content).None? && content != "" {
      var nl := NewLine();
      assert body + nl + nl + content == body + (nl + nl + content);
      assert "" + body == body;
    } else {
      assert "" + body == body;
    }
  }

  /** Before the segment there is no begin marker, not even one that reaches into it. */
  lemma NoEarlierBegin(content: string, body: string)
    requires BeginMarker() <= body
    ensures forall j | 0 <= j < |Around(content).before| :: !Occurs(Around(content).before + body, BeginMarker(), j)
  {
    hide BeginMarker, EndMarker, NewLine, Occurs;
    if Find(content).Some? {
      var start := Find(content).value.start;
      assert Occurs(content, BeginMarker(), start) && forall j | 0 <= j < start :: !Occurs(content, BeginMarker(), j);
      hide Find;
      forall j | 0 <= j < start
        ensures !Occurs(content[..start] + body, BeginMarker(), j)
      {
        SameBegins(content, start, body, j);
      }
    }
  }

  lemma SameBegins(content: string, start: nat, body: string, j: nat)
    requires Occurs(content, BeginMarker(), start) && BeginMarker() <= body && j < start
    ensures Occurs(content[..start] + body, BeginMarker(), j) <==> Occurs(content, BeginMarker(), j)
  {
    hide BeginMarker;
    var begin, other := BeginMarker(), content[..start] + body;
    assert content[start..start + |begin|] == begin;
    assert forall k :: 0 <= k < start ==> content[k] == other[k];
    assert forall k :: start <= k < start + |begin| ==> content[k] == begin[k - start] == body[k - start] == other[k];
    SameStretch(content, other, start + |begin|, j, |begin|);
  }

  lemma SameStretch(a: string, b: string, n: nat, j: nat, length: nat)
    requires n <= |a| && n <= |b| && (forall k :: 0 <= k < n ==> a[k] == b[k]) && j + length <= n
    ensures a[j..j + length] == b[j..j + length]
  {}

  lemma OccursLater(s: string, extra: string, pattern: string, i: nat)
    requires i + |pattern| <= |s|
    ensures Occurs(s + extra, pattern, i) <==> Occurs(s, pattern, i)
  {
    assert (s + extra)[i..i + |pattern|] == s[i..i + |pattern|];
  }

  lemma OccursShifted(before: string, s: string, pattern: string, i: nat)
    ensures Occurs(before + s, pattern, |before| + i) <==> Occurs(s, pattern, i)
  {
    if i + |pattern| <= |s| {
      assert (before + s)[|before| + i..|before| + i + |pattern|] == s[i..i + |pattern|];
    }
  }

  /** A segment between text without an earlier begin marker is the one that is found. */
  lemma FoundBetween(before: string, body: string, after: string)
    requires Managed(body) && forall j | 0 <= j < |before| :: !Occurs(before + body, BeginMarker(), j)
    ensures Find(before + body + after) == Some(Located(body, |before|, |before| + |body|))
  {
    hide BeginMarker, EndMarker, IndexOf, Managed, Occurs;
    BeginFound(before, body, after);
    EndFound(before, body, after);
    EndFits(body);
    var content := before + body + after;
    assert content[|before|..|before| + |body|] == body;
  }

  lemma EndFits(body: string)
    requires Managed(body)
    ensures |EndMarker()| <= |body|
  {}

  lemma BeginFound(before: string, body: string, after: string)
    requires Managed(body) && forall j | 0 <= j < |before| :: !Occurs(before + body, BeginMarker(), j)
    ensures IndexOf(before + body + after, BeginMarker(), 0) == Some(|before|)
  {
    hide BeginMarker, EndMarker, IndexOf;
    var begin, inner := BeginMarker(), before + body;
    assert Occurs(body, begin, 0);
    OccursShifted(before, body, begin, 0);
    OccursLater(inner, after, begin, |before|);
    forall j | 0 <= j < |before|
      ensures !Occurs(inner + after, begin, j)
    {
      OccursLater(inner, after, begin, j);
    }
    FirstIndex(inner + after, begin, 0, |before|);
  }

  lemma EndFound(before: string, body: string, after: string)
    requires Managed(body)
    ensures IndexOf(before + body + after, EndMarker(), |before|) == Some(|before| + |body| - |EndMarker()|)
  {
    hide BeginMarker, EndMarker, IndexOf, Occurs;
    var end, inner := EndMarker(), before + body;
    var last := |body| - |end|;
    OccursShifted(before, body, end, last);
    OccursLater(inner, after, end, |before| + last);
    forall j | |before| <= j < |before| + last
      ensures !Occurs(inner + after, end, j)
    {
      OccursShifted(before, body, end, j - |before|);
      OccursLater(inner, after, end, j);
    }
    FirstIndex(inner + after, end, |before|, |before| + last);
  }

  /** The segment spliced in is the one found afterwards, in the same place, and the rest of the file is the same. */
  lemma FindAfterSplice(content: string, body: string)
    requires Managed(body)
    ensures Find(Splice(content, body)) == Some(Located(body, |Around(content).before|, |Around(content).before| + |body|))
    ensures Around(Splice(content, body)) == Around(content)
  {
    hide Find, BeginMarker, EndMarker, NewLine, IndexOf, Managed, Occurs, Splice;
    SpliceIsAround(content, body);
    assert BeginMarker() <= body by { StartsWithBegin(body); }
    NoEarlierBegin(content, body);
    var out := Around(content);
    FoundBetween(out.before, body, out.after);
    FoundIsAround(out.before + body + out.after, out.before, body, out.after);
  }

  lemma StartsWithBegin(body: string)
    requires Managed(body)
    ensures BeginMarker() <= body
  {}

  lemma FoundIsAround(content: string, before: string, body: string, after: string)
    requires content == before + body + after && Find(content) == Some(Located(body, |before|, |before| + |body|))
    ensures Around(content) == Outside(before, after)
  {
    hide Find, NewLine;
    assert content[..|before|] == before && content[|before| + |body|..] == after;
  }

  /** The last splice wins; so splicing the same segment again changes nothing. */
  lemma LastSpliceWins(content: string, first: string, second: string)
    requires Managed(first)
    ensures Splice(Splice(content, first), second) == Splice(content, second)
  {
    FindAfterSplice(content, first);
    SpliceIsAround(content, second);
    SpliceIsAround(Splice(content, first), second);
  }

  // ----- lines

  /** `lines.join("\r\n")`. */
  function Join(lines: seq<string>): string {
    if |lines| == 0 then "" else if |lines| == 1 then lines[0] else lines[0] + NewLine() + Join(lines[1..])
  }

  /** `s.split(/\r\n|\n/)`. */
  function Lines(s: string): (lines: seq<string>)
    ensures lines != []
  {
    if s == "" then [""]
    else if s[0] == '\n' then [""] + Lines(s[1..])
    else if |s| >= 2 && s[0] == '\r' && s[1] == '\n' then [""] + Lines(s[2..])
    else
      var rest := Lines(s[1..]);
      [[s[0]] + rest[0]] + rest[1..]
  }

  /** Text that stays one line in front of a line break. */
  predicate OneLine(s: string) { (forall i :: 0 <= i < |s| ==> s[i] != '\n') && (s != "" ==> s[|s| - 1] != '\r') }

  lemma {:induction false} LinesOfOne(line: string)
    requires OneLine(line)
    ensures Lines(line) == [line]
  {
    if line != "" {
      LinesOfOne(line[1..]);
      assert [line[0]] + line[1..] == line;
    }
  }

  lemma {:induction false} FirstOfLines(line: string, rest: string)
    requires OneLine(line)
    ensures Lines(line + NewLine() + rest) == [line] + Lines(rest)
  {
    var s := line + NewLine() + rest;
    if line == "" {
      assert s[0] == '\r' && s[1] == '\n' && s[2..] == rest;
    } else {
      FirstOfLines(line[1..], rest);
      assert s[1..] == line[1..] + NewLine() + rest;
      assert s[0] == line[0];
      assert [line[0]] + line[1..] == line;
    }
  }

  lemma {:induction false} LinesOfJoin(lines: seq<string>)
    requires lines != [] && forall i :: 0 <= i < |lines| ==> OneLine(lines[i])
    ensures Lines(Join(lines)) == lines
  {
    hide Lines, OneLine;
    if |lines| == 1 {
      LinesOfOne(lines[0]);
    } else {
      LinesOfJoin(lines[1..]);
      FirstOfLines(lines[0], Join(lines[1..]));
      assert [lines[0]] + lines[1..] == lines;
    }
  }

  // ----- the lines of a found segment

  /** The part stands in the text at the position. */
  predicate StandsAt(s: string, p: nat, part: string) { p + |part| <= |s| && forall i :: 0 <= i < |part| ==> s[p + i] == part[i] }

  /** How many characters the line break at the front of the text takes, if there is one. */
  function BreakAt(s: string): nat {
    if s != "" && s[0] == '\n' then 1 else if |s| >= 2 && s[0] == '\r' && s[1] == '\n' then 2 else 0
  }

  lemma LinesUnfold(s: string)
    requires s != ""
    ensures BreakAt(s) > 0 ==> Lines(s) == [""] + Lines(s[BreakAt(s)..])
    ensures BreakAt(s) == 0 ==> Lines(s) == [[s[0]] + Lines(s[1..])[0]] + Lines(s[1..])[1..] && s[0] != '\n'
  {}

  /** Every line is a stretch of the text; all but the last end before it does. */
  lemma {:induction false} LineAt(s: string, k: nat) returns (p: nat)
    requires k < |Lines(s)|
    ensures StandsAt(s, p, Lines(s)[k]) && (k < |Lines(s)| - 1 ==> p + |Lines(s)[k]| < |s|) && '\n' !in Lines(s)[k]
    ensures k == 0 ==> p == 0
    decreases |s|
  {
    if s == "" {
      p := 0;
    } else {
      LinesUnfold(s);
      var n := BreakAt(s);
      hide Lines, BreakAt;
      if n > 0 && k == 0 {
        p := 0;
      } else if n > 0 {
        p := LineAt(s[n..], k - 1);
        p := p + n;
      } else {
        var q := LineAt(s[1..], k);
        p := if k == 0 then 0 else q + 1;
      }
    }
  }

  lemma OccursWhereItStands(s: string, p: nat, part: string, pattern: string, i: nat)
    requires StandsAt(s, p, part) && Occurs(part, pattern, i)
    ensures i + |pattern| <= |part| && Occurs(s, pattern, p + i)
  {
    var x, y := s[p + i..p + i + |pattern|], part[i..i + |pattern|];
    assert forall k :: 0 <= k < |pattern| ==> x[k] == s[p + (i + k)] == part[i + k] == y[k];
    assert x == y;
  }

  /** A found segment holds no end marker before its end. */
  lemma NoEarlierEnd(content: string, i: nat)
    requires Find(content).Some? && i + |EndMarker()| < |Find(content).value.segment|
    ensures !Occurs(Find(content).value.segment, EndMarker(), i)
  {
    hide BeginMarker, EndMarker;
    var l := Find(content).value;
    assert !Occurs(content, EndMarker(), l.start + i);
    assert l.segment[i..i + |EndMarker()|] == content[l.start + i..l.start + i + |EndMarker()|];
  }

  // ----- bodies made of lines

  function BodyOf(middle: seq<string>): string { Join([BeginLine()] + middle + [EndMarker()]) }

  ghost predicate FreeOfEnd(s: string) { forall i: nat :: !Occurs(s, EndMarker(), i) }

  ghost predicate NoneBefore(s: string, n: int) { forall i: nat :: i < n ==> !Occurs(s, EndMarker(), i) }

  /** The end marker holds no line break, so it never straddles one. */
  lemma EndAcrossBreak(line: string, rest: string, i: nat)
    ensures Occurs(line + NewLine() + rest, EndMarker(), i) <==>
              || (i + |EndMarker()| <= |line| && Occurs(line, EndMarker(), i))
              || (i >= |line| + 2 && Occurs(rest, EndMarker(), i - |line| - 2))
  {
    var s, end := line + NewLine() + rest, EndMarker();
    EndIsOneLine();
    hide EndMarker;
    assert s[|line|] == '\r' && s[|line| + 1] == '\n';
    if i + |end| <= |line| {
      assert s[i..i + |end|] == line[i..i + |end|];
    } else if i >= |line| + 2 {
      OccursShifted(line + NewLine(), rest, end, i - |line| - 2);
    } else if i + |end| <= |s| {
      var k := if i <= |line| then |line| else |line| + 1;
      assert s[i..i + |end|][k - i] == s[k];
    }
  }

  lemma EndIsOneLine()
    ensures |EndMarker()| > 2 && OneLine(EndMarker())
    ensures forall i :: 0 <= i < |EndMarker()| ==> EndMarker()[i] != '\r'
  {}

  /** In lines followed by the end marker, that is the first one exactly when no line holds one. */
  lemma {:induction false} FirstEndIsLast(middle: seq<string>)
    ensures var s := Join(middle + [EndMarker()]);
            && |EndMarker()| <= |s| && s[|s| - |EndMarker()|..] == EndMarker()
            && (NoneBefore(s, |s| - |EndMarker()|) <==> forall k :: 0 <= k < |middle| ==> FreeOfEnd(middle[k]))
  {
    hide EndMarker, FreeOfEnd, NoneBefore, NewLine;
    if middle == [] {
      assert middle + [EndMarker()] == [EndMarker()];
      NoneBeforeStart();
    } else {
      var rest := Join(middle[1..] + [EndMarker()]);
      assert (middle + [EndMarker()])[1..] == middle[1..] + [EndMarker()];
      FirstEndIsLast(middle[1..]);
      var s := middle[0] + NewLine() + rest;
      NoneBeforeBreak(middle[0], rest, |rest| - |EndMarker()|);
      assert s[|s| - |EndMarker()|..] == rest[|rest| - |EndMarker()|..];
      assert forall k :: 0 <= k < |middle| - 1 ==> middle[1..][k] == middle[k + 1];
    }
  }

  lemma NoneBeforeStart()
    ensures forall s :: NoneBefore(s, 0)
  {}

  lemma NoneBeforeBreak(line: string, rest: string, n: nat)
    ensures |NewLine()| == 2
    ensures NoneBefore(line + NewLine() + rest, |line| + 2 + n) <==> FreeOfEnd(line) && NoneBefore(rest, n)
  {
    hide EndMarker, Occurs;
    var s, end := line + NewLine() + rest, EndMarker();
    forall i: nat
      ensures Occurs(s, end, i) <==>
                (i + |end| <= |line| && Occurs(line, end, i)) || (i >= |line| + 2 && Occurs(rest, end, i - |line| - 2))
    {
      EndAcrossBreak(line, rest, i);
    }
    forall i: nat
      ensures Occurs(line, end, i) ==> i + |end| <= |line|
    {
      OccursInside(line, end, i);
    }
    EndIsOneLine();
    if NoneBefore(s, |line| + 2 + n) {
      forall i: nat | i < n
        ensures !Occurs(rest, end, i)
      {
        assert !Occurs(s, end, |line| + 2 + i);
      }
    }
  }

  lemma OccursInside(s: string, pattern: string, i: nat)
    ensures Occurs(s, pattern, i) ==> i + |pattern| <= |s|
  {}

  lemma BeginLineFacts()
    ensures OneLine(BeginLine()) && BeginMarker() <= BeginLine() && FreeOfEnd(BeginLine())
  {
    var line, end := BeginLine(), EndMarker();
    assert line[14] == 'B' && end[14] == 'E' && end[0] == '/' && end[1] == '/';
    assert forall i :: 1 <= i < |line| ==> line[i] != '/' || i == 1;
    forall i: nat
      ensures !Occurs(line, end, i)
    {
      if i + |end| <= |line| {
        var part := line[i..i + |end|];
        assert part[0] == line[i] && part[1] == line[i + 1] && part[14] == line[i + 14];
      }
    }
  }

  /** A body made of lines is a managed segment exactly when no line holds the end marker. */
  lemma SegmentIffNoLineHoldsTheEnd(middle: seq<string>)
    ensures Managed(BodyOf(middle)) <==> forall k :: 0 <= k < |middle| ==> FreeOfEnd(middle[k])
  {
    BeginLineFacts();
    FirstEndIsLast(middle);
    var rest := Join(middle + [EndMarker()]);
    hide BeginMarker, EndMarker, BeginLine, IndexOf, FreeOfEnd, NoneBefore, NewLine, OneLine;
    var all := [BeginLine()] + middle + [EndMarker()];
    assert all[1..] == middle + [EndMarker()];
    var body := BeginLine() + NewLine() + rest;
    NoneBeforeBreak(BeginLine(), rest, |rest| - |EndMarker()|);
    assert body == BodyOf(middle);
    var last := |body| - |EndMarker()|;
    assert body[last..] == rest[|rest| - |EndMarker()|..];
    FirstIsThere(body, last);
  }

  lemma FirstIsThere(s: string, i: nat)
    requires Occurs(s, EndMarker(), i)
    ensures NoneBefore(s, i) <==> IndexOf(s, EndMarker(), 0) == Some(i)
  {
    hide EndMarker, Occurs;
    if NoneBefore(s, i) {
      FirstIndex(s, EndMarker(), 0, i);
    }
  }

  // ----- lines that cannot hold a marker

  /** Two slashes, then the first letter of a marker. */
  predicate Marks(s: string, i: nat) { i + 2 < |s| && s[i] == '/' && s[i + 1] == '/' && s[i + 2] == 'S' }

  predicate Quiet(s: string) { forall i :: 0 <= i < |s| ==> !Marks(s, i) }

  lemma QuietIsFree(s: string)
    requires Quiet(s)
    ensures FreeOfEnd(s)
  {
    forall i: nat
      ensures !Occurs(s, EndMarker(), i)
    {
      if i + |EndMarker()| <= |s| {
        var end := s[i..i + |EndMarker()|];
        assert s[i] == end[0] && s[i + 1] == end[1] && s[i + 2] == end[2];
        assert !Marks(s, i);
      }
    }
  }

  /** So a body of quiet lines is a managed segment, and splits into exactly those lines. */
  lemma QuietLinesMakeSegment(middle: seq<string>)
    requires forall k :: 0 <= k < |middle| ==> OneLine(middle[k]) && Quiet(middle[k])
    ensures Managed(BodyOf(middle))
    ensures Lines(BodyOf(middle)) == [BeginLine()] + middle + [EndMarker()]
  {
    hide Quiet, BeginMarker, Lines, OneLine, FreeOfEnd, BeginLine, EndMarker, Managed, Join;
    BeginLineFacts();
    EndIsOneLine();
    LinesOfJoin([BeginLine()] + middle + [EndMarker()]);
    forall k | 0 <= k < |middle|
      ensures FreeOfEnd(middle[k])
    {
      QuietIsFree(middle[k]);
    }
    SegmentIffNoLineHoldsTheEnd(middle);
  }
}
