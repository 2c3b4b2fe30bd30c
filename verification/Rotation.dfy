/** The managed segment of LayerRotation.cfg (apps/api/src/lib/rotation-segment.ts). */
module Rotation {

  import opened Segments
  import opened Text

  const MAX_LAYER_NAME_LENGTH := 128

  predicate IsControl(c: char) { c <= '\U{1F}' || c == '\U{7F}' }

  predicate HasDoubleSlash(s: string) { exists i :: 0 <= i < |s| - 1 && s[i] == '/' && s[i + 1] == '/' }

  /** `validateLayerName`. */
  predicate ValidateLayerName(name: string) {
    && 1 <= |name| <= MAX_LAYER_NAME_LENGTH
    && (forall i :: 0 <= i < |name| ==> !IsControl(name[i]))
    && Trim(name) == name
    && !HasDoubleSlash(name)
  }

  predicate StartsWithSlashes(s: string) { |s| >= 2 && s[0] == '/' && s[1] == '/' }

  /** The trimmed lines that are neither blank nor comments. */
  function Names(lines: seq<string>): seq<string> {
    if lines == [] then []
    else
      var line := Trim(lines[0]);
      (if line == "" || StartsWithSlashes(line) then [] else [line]) + Names(lines[1..])
  }

  /** `parseRotationSegment`. */
  function ParseRotationSegment(content: string): seq<string> {
    var located := Find(content);
    if located.None? then []
    else
      var lines := Lines(located.value.segment);
      if |lines| < 2 then [] else Names(lines[1..|lines| - 1])
  }

  /** `buildRotationSegmentBody`. */
  function BuildRotationSegmentBody(names: seq<string>): string { BodyOf(names) }

  /** Which names are accepted. */
  lemma AcceptedExactly(name: string)
    ensures ValidateLayerName(name) <==>
              && 1 <= |name| <= 128
              && (forall i :: 0 <= i < |name| ==> !('\U{0}' <= name[i] <= '\U{1F}') && name[i] != '\U{7F}')
              && Trimmed(name)
              && (forall i: nat :: !Occurs(name, "//", i))
  {
    hide Trim;
    var i, j := TrimIsSlice(name);
    hide IsWhitespace;
    if forall k: nat :: !Occurs(name, "//", k) {
      forall k | 0 <= k < |name| - 1
        ensures !(name[k] == '/' && name[k + 1] == '/')
      {
        assert !Occurs(name, "//", k);
        assert name[k..k + 2] == [name[k], name[k + 1]];
      }
    }
    forall k: nat | Occurs(name, "//", k)
      ensures HasDoubleSlash(name)
    {
      assert name[k..k + 2] == [name[k], name[k + 1]];
    }
  }

  /** What one line contributes. */
  function ReadLine(line: string): seq<string> { if Trim(line) == "" || Occurs(Trim(line), "//", 0) then [] else [Trim(line)] }

  lemma FirstLine(line: string, rest: seq<string>)
    ensures Names([line] + rest) == ReadLine(line) + Names(rest)
  {
    hide Trim;
    var lines, text := [line] + rest, Trim(line);
    assert lines[0] == line && lines[1..] == rest;
    assert |text| >= 2 ==> text[0..2] == [text[0], text[1]];
  }

  /** Line by line, what is read: the trimmed text, unless it is blank or starts with two slashes. */
  lemma {:induction false} ReadLineByLine(before: seq<string>, line: string, after: seq<string>)
    ensures Names(before + [line] + after) == Names(before) + ReadLine(line) + Names(after)
  {
    hide Names, ReadLine;
    if before == [] {
      assert before + [line] + after == [line] + after;
      FirstLine(line, after);
      NoLines();
    } else {
      ReadLineByLine(before[1..], line, after);
      FirstLine(before[0], before[1..] + [line] + after);
      FirstLine(before[0], before[1..]);
      assert before + [line] + after == [before[0]] + (before[1..] + [line] + after);
      assert [before[0]] + before[1..] == before;
      Regroup(ReadLine(before[0]), Names(before[1..]), ReadLine(line), Names(after));
    }
  }

  lemma NoLines()
    ensures Names([]) == []
  {}

  lemma Regroup(a: seq<string>, b: seq<string>, c: seq<string>, d: seq<string>)
    ensures a + (b + c + d) == (a + b) + c + d
  {}

  /** What the parser keeps as it is. */
  predicate Kept(name: string) { name != "" && Trim(name) == name && !StartsWithSlashes(name) }

  lemma {:induction false} NamesOfNames(names: seq<string>)
    requires forall k :: 0 <= k < |names| ==> Kept(names[k])
    ensures Names(names) == names
  {
    hide Trim;
    if names != [] {
      NamesOfNames(names[1..]);
      assert [names[0]] + names[1..] == names;
    }
  }

  lemma NameIsQuietLine(name: string)
    requires ValidateLayerName(name)
    ensures OneLine(name) && Quiet(name) && Kept(name)
  {
    hide Trim;
  }

  /** Every list of accepted names reads back from any file it is written into. */
  lemma RotationRoundTrip(content: string, names: seq<string>)
    requires forall k :: 0 <= k < |names| ==> ValidateLayerName(names[k])
    ensures ParseRotationSegment(Splice(content, BuildRotationSegmentBody(names))) == names
  {
    hide Splice, Find, Lines, BeginLine, EndMarker, BeginMarker, ValidateLayerName, OneLine, Quiet, Kept, Join, Managed;
    forall k | 0 <= k < |names|
      ensures OneLine(names[k]) && Quiet(names[k]) && Kept(names[k])
    {
      NameIsQuietLine(names[k]);
    }
    QuietLinesMakeSegment(names);
    var body := BuildRotationSegmentBody(names);
    FindAfterSplice(content, body);
    var lines := [BeginLine()] + names + [EndMarker()];
    assert lines[1..|lines| - 1] == names;
    NamesOfNames(names);
  }

  /** Writing back what was read from a file that was so written changes nothing. */
  lemma WriteBackIsNoop(content: string, names: seq<string>)
    requires forall k :: 0 <= k < |names| ==> ValidateLayerName(names[k])
    ensures var file := Splice(content, BuildRotationSegmentBody(names));
            Splice(file, BuildRotationSegmentBody(ParseRotationSegment(file))) == file
  {
    hide Splice, ParseRotationSegment, ValidateLayerName, OneLine, Quiet, Managed, BodyOf;
    RotationRoundTrip(content, names);
    forall k | 0 <= k < |names|
      ensures OneLine(names[k]) && Quiet(names[k])
    {
      NameIsQuietLine(names[k]);
    }
    QuietLinesMakeSegment(names);
    LastSpliceWins(content, BodyOf(names), BodyOf(names));
  }

  // ----- any file at all

  /** Every name that is read is the trimmed text of a line it is read from. */
  lemma {:induction false} NameFromLine(lines: seq<string>, k: nat) returns (j: nat)
    requires k < |Names(lines)|
    ensures j < |lines| && Names(lines)[k] == Trim(lines[j]) && Kept(Names(lines)[k])
  {
    hide Trim;
    var line := Trim(lines[0]);
    TrimTwice(lines[0]);
    if line == "" || StartsWithSlashes(line) {
      j := NameFromLine(lines[1..], k);
      j := j + 1;
    } else if k == 0 {
      j := 0;
    } else {
      j := NameFromLine(lines[1..], k - 1);
      j := j + 1;
    }
  }

  lemma TrimTwice(s: string)
    ensures Trim(Trim(s)) == Trim(s)
  {
    hide Trim;
    var i, j := TrimIsSlice(s);
    var i', j' := TrimIsSlice(Trim(s));
  }

  /** A name read from a file stays one line and holds no end marker. */
  lemma ReadNameIsSafe(content: string, k: nat)
    requires k < |ParseRotationSegment(content)|
    ensures var name := ParseRotationSegment(content)[k];
            OneLine(name) && FreeOfEnd(name) && Kept(name)
  {
    hide Trim, Find, Lines, EndMarker, Occurs, FreeOfEnd, IsWhitespace;
    var lines := Lines(Find(content).value.segment);
    var middle := lines[1..|lines| - 1];
    var j := NameFromLine(middle, k);
    MiddleLineIsSafe(content, j + 1);
    TrimmedIsSafe(lines[j + 1]);
  }

  lemma MiddleLineIsSafe(content: string, k: nat)
    requires Find(content).Some? && k < |Lines(Find(content).value.segment)| - 1
    ensures var line := Lines(Find(content).value.segment)[k]; FreeOfEnd(line) && '\n' !in line
  {
    hide Find, Lines, EndMarker, Occurs, StandsAt;
    var segment := Find(content).value.segment;
    var line := Lines(segment)[k];
    var p := LineAt(segment, k);
    forall i: nat | Occurs(line, EndMarker(), i)
      ensures false
    {
      OccursWhereItStands(segment, p, line, EndMarker(), i);
      NoEarlierEnd(content, p + i);
    }
  }

  lemma TrimmedIsSafe(line: string)
    requires FreeOfEnd(line) && '\n' !in line
    ensures FreeOfEnd(Trim(line)) && OneLine(Trim(line))
  {
    hide Trim, EndMarker, Occurs;
    var name := Trim(line);
    var from, upTo := TrimIsSlice(line);
    assert StandsAt(line, from, name);
    forall i: nat | Occurs(name, EndMarker(), i)
      ensures false
    {
      OccursWhereItStands(line, from, name, EndMarker(), i);
    }
  }

  /** Reading any file, writing back what was read and reading again gives the same names. */
  lemma RereadIsStable(content: string)
    ensures var names := ParseRotationSegment(content);
            ParseRotationSegment(Splice(content, BuildRotationSegmentBody(names))) == names
  {
    var names := ParseRotationSegment(content);
    forall k | 0 <= k < |names|
      ensures OneLine(names[k]) && FreeOfEnd(names[k]) && Kept(names[k])
    {
      ReadNameIsSafe(content, k);
    }
    WrittenNamesReadBack(content, names);
  }

  lemma WrittenNamesReadBack(content: string, names: seq<string>)
    requires forall k :: 0 <= k < |names| ==> OneLine(names[k]) && FreeOfEnd(names[k]) && Kept(names[k])
    ensures ParseRotationSegment(Splice(content, BuildRotationSegmentBody(names))) == names
  {
    BeginLineFacts();
    EndIsOneLine();
    hide Splice, Find, Lines, BeginLine, EndMarker, BeginMarker, OneLine, FreeOfEnd, Kept, Join, Managed;
    var lines := [BeginLine()] + names + [EndMarker()];
    SegmentIffNoLineHoldsTheEnd(names);
    LinesOfJoin(lines);
    FindAfterSplice(content, BuildRotationSegmentBody(names));
    assert lines[1..|lines| - 1] == names;
    NamesOfNames(names);
  }
}
