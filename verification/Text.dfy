/** String helpers shared by the config-file modules. */
module Text {

  predicate IsDigit(c: char) { '0' <= c <= '9' }

  predicate IsNumber(s: string) { s != "" && forall i :: 0 <= i < |s| ==> IsDigit(s[i]) }

  function DigitValue(c: char): nat { if IsDigit(c) then c as int - '0' as int else 0 }

  /** The number a string of digits denotes. */
  function NumberOf(digits: string): nat {
    if digits == "" then 0 else 10 * NumberOf(digits[..|digits| - 1]) + DigitValue(digits[|digits| - 1])
  }

  function DigitChar(n: int): char
    requires 0 <= n < 10
  {
    n as char + '0'
  }

  /** The usual way to write a number. */
  function Decimal(n: nat): (s: string)
    ensures IsNumber(s) && NumberOf(s) == n
  {
    if n < 10 then [DigitChar(n)]
    else
      var front := Decimal(n / 10);
      var s := front + [DigitChar(n % 10)];
      assert s[..|s| - 1] == front;
      s
  }

  /** What `String.prototype.trim` removes. */
  predicate IsWhitespace(c: char) {
    || c == ' ' || '\t' <= c <= '\r' || c == '\U{A0}' || c == '\U{1680}' || '\U{2000}' <= c <= '\U{200A}'
    || c == '\U{2028}' || c == '\U{2029}' || c == '\U{202F}' || c == '\U{205F}' || c == '\U{3000}' || c == '\U{FEFF}'
  }

  function TrimStart(s: string): (r: string)
    ensures |r| <= |s|
  {
    if s != "" && IsWhitespace(s[0]) then TrimStart(s[1..]) else s
  }

  function TrimEnd(s: string): string { if s != "" && IsWhitespace(s[|s| - 1]) then TrimEnd(s[..|s| - 1]) else s }

  function Trim(s: string): string { TrimEnd(TrimStart(s)) }

  predicate Trimmed(s: string) { s != "" ==> !IsWhitespace(s[0]) && !IsWhitespace(s[|s| - 1]) }

  lemma {:induction false} TrimStartSlice(s: string) returns (i: nat)
    ensures i <= |s| && TrimStart(s) == s[i..]
    ensures TrimStart(s) != "" ==> !IsWhitespace(TrimStart(s)[0])
  {
    hide IsWhitespace;
    if s != "" && IsWhitespace(s[0]) {
      var j := TrimStartSlice(s[1..]);
      i := j + 1;
      assert s[1..][j..] == s[i..];
    } else {
      i := 0;
      assert s[0..] == s;
    }
  }

  lemma {:induction false} TrimEndSlice(s: string) returns (j: nat)
    ensures j <= |s| && TrimEnd(s) == s[..j]
    ensures TrimEnd(s) != "" ==> !IsWhitespace(TrimEnd(s)[|TrimEnd(s)| - 1])
  {
    hide IsWhitespace;
    if s != "" && IsWhitespace(s[|s| - 1]) {
      j := TrimEndSlice(s[..|s| - 1]);
      assert s[..|s| - 1][..j] == s[..j];
    } else {
      j := |s|;
      assert s[..j] == s;
    }
  }

  /** Trimming takes a slice that no longer begins or ends with whitespace, and leaves such a string alone. */
  lemma TrimIsSlice(s: string) returns (i: nat, j: nat)
    ensures i <= j <= |s| && Trim(s) == s[i..j] && Trimmed(Trim(s))
    ensures Trimmed(s) <==> Trim(s) == s
  {
    hide IsWhitespace;
    i := TrimStartSlice(s);
    var front := TrimStart(s);
    var n := TrimEndSlice(front);
    j := i + n;
    assert s[i..][..n] == s[i..j];
    if Trimmed(s) {
      assert front == s;
    }
  }

  // ----- words

  /** `s.split(/\s+/)`: the pieces between runs of white space, always at least one. */
  function SplitAtSpaces(s: string): (pieces: seq<string>)
    ensures pieces != []
    decreases |s|
  {
    if s == "" then [""]
    else if IsWhitespace(s[0]) then [""] + SplitAtSpaces(TrimStart(s[1..]))
    else
      var rest := SplitAtSpaces(s[1..]);
      [[s[0]] + rest[0]] + rest[1..]
  }

  predicate Blank(s: string) { forall i :: 0 <= i < |s| ==> IsWhitespace(s[i]) }

  predicate Word(s: string) { s != "" && forall i :: 0 <= i < |s| ==> !IsWhitespace(s[i]) }

  /** Words with the given gaps between them. */
  function Spaced(words: seq<string>, gaps: seq<string>): string
    requires |words| == |gaps| + 1
  {
    if gaps == [] then words[0] else words[0] + gaps[0] + Spaced(words[1..], gaps[1..])
  }

  ghost predicate WellSpaced(words: seq<string>, gaps: seq<string>) {
    && |words| == |gaps| + 1
    && (forall i :: 0 <= i < |words| ==> Word(words[i]))
    && (forall i :: 0 <= i < |gaps| ==> Blank(gaps[i]) && gaps[i] != "")
  }

  lemma {:induction false} TrimStartOfBlank(blank: string, s: string)
    requires Blank(blank) && (s != "" ==> !IsWhitespace(s[0]))
    ensures TrimStart(blank + s) == s
  {
    if blank == "" {
      assert blank + s == s;
    } else {
      assert (blank + s)[1..] == blank[1..] + s;
      TrimStartOfBlank(blank[1..], s);
    }
  }

  lemma {:induction false} TrimEndOfBlank(s: string, blank: string)
    requires Blank(blank) && (s != "" ==> !IsWhitespace(s[|s| - 1]))
    ensures TrimEnd(s + blank) == s
  {
    if blank == "" {
      assert s + blank == s;
    } else {
      var n := |blank| - 1;
      assert (s + blank)[..|s + blank| - 1] == s + blank[..n];
      TrimEndOfBlank(s, blank[..n]);
    }
  }

  lemma {:induction false} SplitOneWord(word: string)
    requires forall i :: 0 <= i < |word| ==> !IsWhitespace(word[i])
    ensures SplitAtSpaces(word) == [word]
  {
    if word != "" {
      SplitOneWord(word[1..]);
      assert [word[0]] + word[1..] == word;
    }
  }

  lemma {:induction false} SplitFirstWord(word: string, gap: string, rest: string)
    requires (forall i :: 0 <= i < |word| ==> !IsWhitespace(word[i])) && Blank(gap) && gap != ""
    requires rest != "" && !IsWhitespace(rest[0])
    ensures SplitAtSpaces(word + gap + rest) == [word] + SplitAtSpaces(rest)
  {
    hide IsWhitespace;
    var s := word + gap + rest;
    if word == "" {
      assert s[0] == gap[0] && s[1..] == gap[1..] + rest;
      TrimStartOfBlank(gap[1..], rest);
    } else {
      assert s[0] == word[0] && s[1..] == word[1..] + gap + rest;
      SplitFirstWord(word[1..], gap, rest);
      assert [word[0]] + word[1..] == word;
    }
  }

  lemma {:induction false} SplitOfSpaced(words: seq<string>, gaps: seq<string>)
    requires WellSpaced(words, gaps)
    ensures SplitAtSpaces(Spaced(words, gaps)) == words
    ensures Spaced(words, gaps) != "" && Trimmed(Spaced(words, gaps))
  {
    hide IsWhitespace, SplitAtSpaces;
    if gaps == [] {
      SplitOneWord(words[0]);
      assert words == [words[0]];
    } else {
      SplitOfSpaced(words[1..], gaps[1..]);
      var rest := Spaced(words[1..], gaps[1..]);
      SplitFirstWord(words[0], gaps[0], rest);
      var s := words[0] + gaps[0] + rest;
      assert s[0] == words[0][0] && s[|s| - 1] == rest[|rest| - 1];
      assert words == [words[0]] + words[1..];
    }
  }

  /** Trimming and splitting finds the words of a text, however they are spaced and padded. */
  lemma WordsAreFound(before: string, words: seq<string>, gaps: seq<string>, after: string)
    requires WellSpaced(words, gaps) && Blank(before) && Blank(after)
    ensures SplitAtSpaces(Trim(before + Spaced(words, gaps) + after)) == words
  {
    hide IsWhitespace, SplitAtSpaces, TrimStart, TrimEnd, Spaced;
    var core := Spaced(words, gaps);
    SplitOfSpaced(words, gaps);
    assert before + core + after == before + (core + after) && (core + after)[0] == core[0];
    TrimStartOfBlank(before, core + after);
    TrimEndOfBlank(core, after);
  }

  /** And a text without words is one empty piece. */
  lemma NoWords(s: string)
    requires Blank(s)
    ensures SplitAtSpaces(Trim(s)) == [""]
  {
    TrimStartOfBlank(s, "");
    assert s + "" == s;
  }
}
