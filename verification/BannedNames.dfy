/**
  The screen for banned-name regex rules (packages/shared-config/src/banned-names.ts).

  Patterns are given as syntax trees (section 22.2.1 of ECMA-262 and the Annex B extensions that
  a pattern without the `u` flag allows), together with the text each tree prints as.  The stack
  scanner, which only ever sees text, is proved to decide a property of the tree.
 */
module BannedNames {

  import opened Wrappers
  import opened Text

  // ----- pattern trees

  datatype Bounds =
    | Star
    | Plus
    | Optional
    | Exactly(n: string)
    | AtLeast(n: string)
    | Between(n: string, m: string)

  datatype Quantifier = Quantifier(bounds: Bounds, lazy: bool)

  datatype GroupKind = Capture | NonCapture | LookAhead | NegativeLookAhead | LookBehind | NegativeLookBehind | Named(name: string)

  datatype ClassItem = Plain(c: char) | Escaped(c: char)

  /** `Escape` covers `\d`, `\n`, `\/` and, as an escape followed by literals, `\x41` or `\cA`. */
  datatype Atom =
    | Literal(c: char)
    | Escape(c: char)
    | NumberedReference(digit: char)
    | NamedReference(name: string)
    | Class(negated: bool, items: seq<ClassItem>)
    | Group(kind: GroupKind, body: Disjunction)

  datatype Term = Term(atom: Atom, quantifier: Option<Quantifier>)

  datatype Alternative = Empty | Concat(first: Term, rest: Alternative)

  datatype Disjunction = Single(only: Alternative) | Either(left: Alternative, right: Disjunction)

  // ----- their text

  function PrintBounds(b: Bounds): string {
    match b
    case Star => "*"
    case Plus => "+"
    case Optional => "?"
    case Exactly(n) => "{" + n + "}"
    case AtLeast(n) => "{" + n + ",}"
    case Between(n, m) => "{" + n + "," + m + "}"
  }

  function PrintQuantifier(q: Option<Quantifier>): string {
    match q
    case None => ""
    case Some(q) => PrintBounds(q.bounds) + if q.lazy then "?" else ""
  }

  function PrintKind(k: GroupKind): string {
    match k
    case Capture => ""
    case NonCapture => "?:"
    case LookAhead => "?="
    case NegativeLookAhead => "?!"
    case LookBehind => "?<="
    case NegativeLookBehind => "?<!"
    case Named(name) => "?<" + name + ">"
  }

  function PrintItems(items: seq<ClassItem>): string {
    if items == [] then "" else
      (match items[0] case Plain(c) => [c] case Escaped(c) => ['\\', c]) + PrintItems(items[1..])
  }

  function PrintAtom(a: Atom): string {
    match a
    case Literal(c) => [c]
    case Escape(c) => ['\\', c]
    case NumberedReference(d) => ['\\', d]
    case NamedReference(name) => "\\k<" + name + ">"
    case Class(negated, items) => "[" + (if negated then "^" else "") + PrintItems(items) + "]"
    case Group(kind, body) => "(" + PrintKind(kind) + PrintDisjunction(body) + ")"
  }

  function PrintTerm(t: Term): string {
    PrintAtom(t.atom) + PrintQuantifier(t.quantifier)
  }

  function PrintAlternative(a: Alternative): string {
    match a
    case Empty => ""
    case Concat(t, rest) => PrintTerm(t) + PrintAlternative(rest)
  }

  function PrintDisjunction(d: Disjunction): string {
    match d
    case Single(a) => PrintAlternative(a)
    case Either(a, rest) => PrintAlternative(a) + "|" + PrintDisjunction(rest)
  }

  // ----- which trees are patterns

  predicate NameStart(c: char) { 'A' <= c <= 'Z' || 'a' <= c <= 'z' || c == '_' || c == '$' }

  predicate NamePart(c: char) { NameStart(c) || IsDigit(c) }

  predicate GroupName(s: string) {
    s != "" && NameStart(s[0]) && forall i :: 0 <= i < |s| ==> NamePart(s[i])
  }

  predicate WellFormedBounds(b: Bounds) {
    match b
    case Exactly(n) => IsNumber(n)
    case AtLeast(n) => IsNumber(n)
    case Between(n, m) => IsNumber(n) && IsNumber(m)
    case _ => true
  }

  predicate WellFormedItem(i: ClassItem) {
    i.Plain? ==> i.c != ']' && i.c != '\\'
  }

  /**
    `after` is the text that follows the atom.  It matters twice: a `{` is a literal only where it
    does not open a bounded quantifier, and `\k` is an escape only where no `<` follows.
   */
  predicate WellFormedAtom(a: Atom, after: string) {
    match a
    case Literal(c) =>
      && c !in {'|', '(', ')', '[', '\\', '*', '+', '?'}
      && (c == '{' ==> ReadBraces("{" + after).None?)
    case Escape(c) => !('1' <= c <= '9') && (c == 'k' ==> !(after != "" && after[0] == '<'))
    case NumberedReference(d) => '1' <= d <= '9'
    case NamedReference(name) => GroupName(name)
    case Class(negated, items) =>
      && (forall i :: 0 <= i < |items| ==> WellFormedItem(items[i]))
      && (!negated && items != [] ==> items[0] != Plain('^'))
    case Group(kind, body) =>
      && (kind.Named? ==> GroupName(kind.name))
      && WellFormedDisjunction(body, ")" + after)
  }

  predicate WellFormedTerm(t: Term, after: string) {
    && WellFormedAtom(t.atom, PrintQuantifier(t.quantifier) + after)
    && (t.quantifier.Some? ==> WellFormedBounds(t.quantifier.value.bounds))
  }

  predicate WellFormedAlternative(a: Alternative, after: string) {
    match a
    case Empty => true
    case Concat(t, rest) => WellFormedTerm(t, PrintAlternative(rest) + after) && WellFormedAlternative(rest, after)
  }

  predicate WellFormedDisjunction(d: Disjunction, after: string) {
    match d
    case Single(a) => WellFormedAlternative(a, after)
    case Either(a, rest) => WellFormedAlternative(a, "|" + PrintDisjunction(rest) + after) && WellFormedDisjunction(rest, after)
  }

  // ----- the property of the tree

  /** Whether a quantifier allows a second repetition. */
  predicate Repeats(b: Bounds) {
    match b
    case Star => true
    case Plus => true
    case Optional => false
    case Exactly(n) => NumberOf(n) > 1
    case AtLeast(n) => true
    case Between(n, m) => NumberOf(m) > 1
  }

  // A quantifier, or an alternation, somewhere inside, at any depth.

  predicate TermQuantified(t: Term) {
    t.quantifier.Some? || (t.atom.Group? && Quantified(t.atom.body))
  }

  predicate AlternativeQuantified(a: Alternative) {
    a.Concat? && (TermQuantified(a.first) || AlternativeQuantified(a.rest))
  }

  predicate Quantified(d: Disjunction) {
    match d
    case Single(a) => AlternativeQuantified(a)
    case Either(a, rest) => AlternativeQuantified(a) || Quantified(rest)
  }

  predicate TermAlternates(t: Term) { t.atom.Group? && Alternates(t.atom.body) }

  predicate AlternativeAlternates(a: Alternative) {
    a.Concat? && (TermAlternates(a.first) || AlternativeAlternates(a.rest))
  }

  predicate Alternates(d: Disjunction) {
    match d
    case Single(a) => AlternativeAlternates(a)
    case Either(_, _) => true
  }

  // No backreference, and no group repeated more than once around a quantifier or an alternation.

  predicate SafeTerm(t: Term) {
    && !t.atom.NumberedReference? && !t.atom.NamedReference?
    && (t.atom.Group? ==>
          && Safe(t.atom.body)
          && (t.quantifier.Some? && Repeats(t.quantifier.value.bounds) ==>
                !Quantified(t.atom.body) && !Alternates(t.atom.body)))
  }

  predicate SafeAlternative(a: Alternative) {
    a.Concat? ==> SafeTerm(a.first) && SafeAlternative(a.rest)
  }

  predicate Safe(d: Disjunction) {
    match d
    case Single(a) => SafeAlternative(a)
    case Either(a, rest) => SafeAlternative(a) && Safe(rest)
  }

  // ----- the scanner's readers, on the text from the current index on

  datatype QuantifierRead = QuantifierRead(length: nat, repeats: bool)

  /** The longest prefix of `s` made of digits. */
  function LeadingDigits(s: string): (d: string)
    ensures |d| <= |s|
  {
    if s != "" && IsDigit(s[0]) then [s[0]] + LeadingDigits(s[1..]) else ""
  }

  function NameRun(s: string): (n: nat)
    ensures n <= |s|
  {
    if s != "" && NamePart(s[0]) then 1 + NameRun(s[1..]) else 0
  }

  /** `{n}`, `{n,}` or `{n,m}` at the start of `s`. */
  function ReadBraces(s: string): (r: Option<QuantifierRead>)
    ensures r.Some? ==> 0 < r.value.length <= |s|
  {
    if s == "" || s[0] != '{' then None else
    var n := LeadingDigits(s[1..]);
    if n == "" then None else ReadUpper(n, s[1..][|n|..])
  }

  /** The rest of a bounded quantifier, behind its `{n`. */
  function ReadUpper(n: string, tail: string): (r: Option<QuantifierRead>)
    ensures r.Some? ==> 0 < r.value.length <= 1 + |n| + |tail|
  {
    if tail == "" then None
    else if tail[0] == '}' then Some(QuantifierRead(|n| + 2, NumberOf(n) > 1))
    else if tail[0] != ',' then None else
    var m := LeadingDigits(tail[1..]);
    if |tail| == 1 + |m| || tail[1 + |m|] != '}' then None
    else Some(QuantifierRead(|n| + |m| + 3, m == "" || NumberOf(m) > 1))
  }

  function ReadGreedy(s: string): (r: Option<QuantifierRead>)
    ensures r.Some? ==> 0 < r.value.length <= |s|
  {
    if s == "" then None
    else if s[0] == '*' || s[0] == '+' then Some(QuantifierRead(1, true))
    else if s[0] == '?' then Some(QuantifierRead(1, false))
    else ReadBraces(s)
  }

  function ReadQuantifier(s: string): (r: Option<QuantifierRead>)
    ensures r.Some? ==> 0 < r.value.length <= |s|
  {
    match ReadGreedy(s)
    case None => None
    case Some(q) =>
      var lazy := if q.length < |s| && s[q.length] == '?' then 1 else 0;
      Some(QuantifierRead(q.length + lazy, q.repeats))
  }

  /** Length of the group prefix (`?:`, `?=`, `?!`, `?<=`, `?<!`, `?<name>`) at the start of `s`. */
  function PrefixLength(s: string): (n: nat)
    ensures n <= |s|
  {
    if |s| < 2 || s[0] != '?' then 0
    else if s[1] == ':' || s[1] == '=' || s[1] == '!' then 2
    else if s[1] != '<' || |s| < 3 then 0
    else if s[2] == '=' || s[2] == '!' then 3
    else if !NameStart(s[2]) then 0 else
    var n := 2 + NameRun(s[2..]);
    if n < |s| && s[n] == '>' then n + 1 else 0
  }

  /** Index just past the `]` that ends class items starting at the start of `s`; past the end when there is none. */
  function ItemsEnd(s: string): (n: nat)
    ensures n > 0
    decreases |s|
  {
    if s == "" || s[0] == ']' then 1
    else if s[0] == '\\' then 2 + ItemsEnd(if |s| >= 2 then s[2..] else "")
    else 1 + ItemsEnd(s[1..])
  }

  function ClassEnd(s: string): (n: nat)
    requires s != ""
    ensures n > 0
  {
    if |s| > 1 && s[1] == '^' then 2 + ItemsEnd(s[2..]) else 1 + ItemsEnd(s[1..])
  }

  function Drop(s: string, n: nat): string { if n <= |s| then s[n..] else "" }

  predicate StartsReference(s: string)
    requires s != "" && s[0] == '\\'
  {
    |s| > 1 && ('1' <= s[1] <= '9' || (s[1] == 'k' && |s| > 2 && s[2] == '<'))
  }

  // ----- the scanner

  datatype Frame = Frame(quantified: bool, alternates: bool)

  /** The stack with the body of its top group known to contain more. */
  function Note(stack: seq<Frame>, quantified: bool, alternates: bool): (r: seq<Frame>)
    requires stack != []
    ensures |r| == |stack|
  {
    var top := stack[|stack| - 1];
    stack[..|stack| - 1] + [Frame(top.quantified || quantified, top.alternates || alternates)]
  }

  /** The verdict on the rest `s` of a pattern, given the open groups. */
  function Scan(s: string, stack: seq<Frame>): bool
    requires stack != []
    decreases |s|, 0
  {
    if s == "" then |stack| == 1
    else if s[0] == '|' then Scan(Drop(s, 1), Note(stack, false, true))
    else if s[0] == '(' then Scan(Drop(s, 1 + PrefixLength(Drop(s, 1))), stack + [Frame(false, false)])
    else if s[0] == ')' then
      if |stack| == 1 then false else
      var group := stack[|stack| - 1];
      ScanQuantifier(Drop(s, 1), Some(group), Note(stack[..|stack| - 1], group.quantified, group.alternates))
    else if s[0] == '\\' then
      if StartsReference(s) then false else ScanQuantifier(Drop(s, 2), None, stack)
    else if s[0] == '[' then ScanQuantifier(Drop(s, ClassEnd(s)), None, stack)
    else ScanQuantifier(Drop(s, 1), None, stack)
  }

  /** The same behind an atom; `group` is what the atom contains when it is a group. */
  function ScanQuantifier(s: string, group: Option<Frame>, stack: seq<Frame>): bool
    requires stack != []
    decreases |s|, 1
  {
    match ReadQuantifier(s)
    case None => Scan(s, stack)
    case Some(q) =>
      if group.Some? && q.repeats && (group.value.quantified || group.value.alternates) then false
      else Scan(Drop(s, q.length), Note(stack, true, false))
  }

  // ----- readers on printed text

  lemma {:induction false} DigitsPrinted(digits: string, after: string)
    requires digits == "" || IsNumber(digits)
    requires after != "" && !IsDigit(after[0])
    ensures LeadingDigits(digits + after) == digits
  {
    if digits == "" {
      assert digits + after == after;
    } else {
      DigitsPrinted(digits[1..], after);
      assert (digits + after)[1..] == digits[1..] + after;
      assert [digits[0]] + digits[1..] == digits;
    }
  }

  lemma {:induction false} NameRunPrinted(name: string, after: string)
    requires forall i :: 0 <= i < |name| ==> NamePart(name[i])
    requires after != "" && !NamePart(after[0])
    ensures NameRun(name + after) == |name|
  {
    if name == "" {
      assert name + after == after;
    } else {
      NameRunPrinted(name[1..], after);
      assert (name + after)[1..] == name[1..] + after;
    }
  }

  lemma BracesPrinted(b: Bounds, after: string)
    requires WellFormedBounds(b) && (b.Exactly? || b.AtLeast? || b.Between?)
    ensures ReadBraces(PrintBounds(b) + after) == Some(QuantifierRead(|PrintBounds(b)|, Repeats(b)))
  {
    hide ReadBraces;
    match b
    case Exactly(n) => ExactlyPrinted(n, after);
    case AtLeast(n) =>
      AtLeastText(n, after);
      BetweenPrinted(n, "", after);
    case Between(n, m) =>
      BetweenText(n, m, after);
      BetweenPrinted(n, m, after);
  }

  lemma ExactlyPrinted(n: string, after: string)
    requires IsNumber(n)
    ensures ReadBraces("{" + n + "}" + after) == Some(QuantifierRead(|n| + 2, NumberOf(n) > 1))
  {
    Assoc("{" + n, "}", after);
    LowerRead(n, "}" + after);
  }

  lemma AtLeastText(n: string, after: string)
    ensures "{" + n + ",}" + after == "{" + n + ("," + ("" + "}") + after)
  {
    assert ",}" == "," + ("" + "}");
    Assoc("{" + n, ",}", after);
  }

  lemma BetweenText(n: string, m: string, after: string)
    ensures "{" + n + "," + m + "}" + after == "{" + n + ("," + (m + "}") + after)
  {
    Assoc("{" + n, ",", m);
    Assoc("{" + n, "," + m, "}");
    Assoc(",", m, "}");
    Assoc("{" + n, "," + (m + "}"), after);
  }

  lemma BetweenPrinted(n: string, m: string, after: string)
    requires IsNumber(n) && (m == "" || IsNumber(m))
    ensures ReadBraces("{" + n + ("," + (m + "}") + after)) == Some(QuantifierRead(|n| + |m| + 3, m == "" || NumberOf(m) > 1))
  {
    Assoc(",", m + "}", after);
    Assoc(m, "}", after);
    var upper := "," + (m + ("}" + after));
    LowerRead(n, upper);
    UpperRead(n, m, "}" + after);
  }

  lemma LowerRead(n: string, upper: string)
    requires IsNumber(n) && upper != "" && !IsDigit(upper[0])
    ensures ReadBraces("{" + n + upper) == ReadUpper(n, upper)
  {
    assert ("{" + n + upper)[1..] == n + upper;
    DigitsPrinted(n, upper);
    DropFirst(n, upper);
  }

  lemma UpperRead(n: string, m: string, tail: string)
    requires (m == "" || IsNumber(m)) && tail != "" && tail[0] == '}'
    ensures ReadUpper(n, "," + (m + tail)) == Some(QuantifierRead(|n| + |m| + 3, m == "" || NumberOf(m) > 1))
  {
    var upper := "," + (m + tail);
    assert upper[1..] == m + tail;
    DigitsPrinted(m, tail);
    assert upper[1 + |m|] == tail[0];
    UpperReadAt(n, m, upper);
  }

  lemma UpperReadAt(n: string, m: string, upper: string)
    requires |upper| > 1 + |m| && upper[0] == ',' && LeadingDigits(upper[1..]) == m && upper[1 + |m|] == '}'
    ensures ReadUpper(n, upper) == Some(QuantifierRead(|n| + |m| + 3, m == "" || NumberOf(m) > 1))
  {}

  lemma GreedyPrinted(b: Bounds, after: string)
    requires WellFormedBounds(b)
    ensures ReadGreedy(PrintBounds(b) + after) == Some(QuantifierRead(|PrintBounds(b)|, Repeats(b)))
  {
    assert (PrintBounds(b) + after)[0] == PrintBounds(b)[0];
    if b.Exactly? || b.AtLeast? || b.Between? {
      BracesPrinted(b, after);
    }
  }

  lemma QuantifierPrinted(q: Quantifier, after: string)
    requires WellFormedBounds(q.bounds) && !(after != "" && after[0] == '?')
    ensures ReadQuantifier(PrintQuantifier(Some(q)) + after)
         == Some(QuantifierRead(|PrintQuantifier(Some(q))|, Repeats(q.bounds)))
  {
    var lazy := if q.lazy then "?" else "";
    var tail := lazy + after;
    Assoc(PrintBounds(q.bounds), lazy, after);
    GreedyPrinted(q.bounds, tail);
    DropFirst(PrintBounds(q.bounds), tail);
    if tail != "" {
      assert (PrintBounds(q.bounds) + tail)[|PrintBounds(q.bounds)|] == tail[0];
      assert tail[0] == '?' <==> q.lazy;
    }
  }

  lemma PrefixPrinted(kind: GroupKind, after: string)
    requires kind.Named? ==> GroupName(kind.name)
    requires kind.Capture? ==> !(after != "" && after[0] == '?')
    ensures PrefixLength(PrintKind(kind) + after) == |PrintKind(kind)|
  {
    if kind.Named? {
      var s := PrintKind(kind) + after;
      assert s[2..] == kind.name + (">" + after);
      NameRunPrinted(kind.name, ">" + after);
      assert s[2] == kind.name[0];
      assert s[2 + |kind.name|] == '>';
    }
  }

  lemma {:induction false} ItemsPrinted(items: seq<ClassItem>, after: string)
    requires forall i :: 0 <= i < |items| ==> WellFormedItem(items[i])
    ensures ItemsEnd(PrintItems(items) + "]" + after) == |PrintItems(items)| + 1
  {
    if items != [] {
      ItemsPrinted(items[1..], after);
      var item := if items[0].Plain? then [items[0].c] else ['\\', items[0].c];
      var tail := PrintItems(items[1..]) + "]" + after;
      Assoc(item, PrintItems(items[1..]), "]");
      Assoc(item, PrintItems(items[1..]) + "]", after);
      DropFirst(item, tail);
      assert (item + tail)[0] == item[0];
    }
  }

  lemma ClassPrinted(negated: bool, items: seq<ClassItem>, after: string)
    requires WellFormedAtom(Class(negated, items), after)
    ensures ClassEnd(PrintAtom(Class(negated, items)) + after) == |PrintAtom(Class(negated, items))|
  {
    var s := PrintAtom(Class(negated, items)) + after;
    var tail := PrintItems(items) + "]" + after;
    ItemsPrinted(items, after);
    if negated {
      assert s == "[^" + tail && s[2..] == tail;
    } else {
      assert s == "[" + tail && s[1..] == tail;
      assert s[1] == tail[0];
    }
  }

  // ----- what may follow

  /** Ends a disjunction: the end of the pattern, or of the group around it. */
  predicate Closes(after: string) { after == "" || after[0] == ')' }

  predicate Separates(after: string) { Closes(after) || after[0] == '|' }

  /** Printed terms never look like the quantifier of what stands before them. */
  lemma NoQuantifierAhead(a: Alternative, after: string)
    requires WellFormedAlternative(a, after) && Separates(after)
    ensures NoQuantifier(PrintAlternative(a) + after)
  {
    match a
    case Empty => assert PrintAlternative(a) + after == after;
    case Concat(t, rest) =>
      var tail := PrintQuantifier(t.quantifier) + (PrintAlternative(rest) + after);
      Assoc(PrintAtom(t.atom), PrintQuantifier(t.quantifier), PrintAlternative(rest));
      Assoc(PrintAtom(t.atom), PrintQuantifier(t.quantifier) + PrintAlternative(rest), after);
      Assoc(PrintQuantifier(t.quantifier), PrintAlternative(rest), after);
      assert PrintAlternative(a) + after == PrintAtom(t.atom) + tail;
      AtomStart(t.atom, tail);
  }

  predicate NoQuantifier(s: string) {
    ReadQuantifier(s).None? && !(s != "" && s[0] == '?')
  }

  lemma AtomStart(a: Atom, after: string)
    requires WellFormedAtom(a, after)
    ensures NoQuantifier(PrintAtom(a) + after)
  {
    var c := PrintAtom(a)[0];
    assert c == (PrintAtom(a) + after)[0];
    assert c !in {'*', '+', '?'};
    if c == '{' {
      assert PrintAtom(a) == "{";
    }
  }

  lemma Assoc(a: string, b: string, c: string)
    ensures (a + b) + c == a + (b + c)
  {}

  // ----- the scanner decides the property

  /** Over the quantifier, if there is one, of an atom that is no group. */
  lemma OverQuantifier(q: Option<Quantifier>, stack: seq<Frame>, after: string)
    requires stack != [] && NoQuantifier(after) && (q.Some? ==> WellFormedBounds(q.value.bounds))
    ensures ScanQuantifier(PrintQuantifier(q) + after, None, stack) == Scan(after, Note(stack, q.Some?, false))
  {
    if q.Some? {
      QuantifierPrinted(q.value, after);
      DropFirst(PrintQuantifier(q), after);
    } else {
      assert PrintQuantifier(q) + after == after;
      NoteNothing(stack);
    }
  }

  lemma DropFirst(a: string, b: string)
    ensures Drop(a + b, |a|) == (a + b)[|a|..] == b
  {}

  lemma NoteNothing(stack: seq<Frame>)
    requires stack != []
    ensures Note(stack, false, false) == stack
  {}

  lemma NoteTwice(stack: seq<Frame>, q: bool, a: bool, q': bool, a': bool)
    requires stack != []
    ensures Note(Note(stack, q, a), q', a') == Note(stack, q || q', a || a')
  {}

  lemma {:induction false} ScanTerm(t: Term, stack: seq<Frame>, after: string)
    requires stack != [] && WellFormedTerm(t, after) && NoQuantifier(after)
    ensures Scan(PrintTerm(t) + after, stack)
        <==> SafeTerm(t) && Scan(after, Note(stack, TermQuantified(t), TermAlternates(t)))
    decreases t, 0
  {
    if t.atom.Group? {
      ScanGroup(t, stack, after);
    } else {
      var tail := PrintQuantifier(t.quantifier) + after;
      Assoc(PrintAtom(t.atom), PrintQuantifier(t.quantifier), after);
      OverQuantifier(t.quantifier, stack, after);
      ScanAtom(t.atom, stack, tail);
    }
  }

  lemma ScanAtom(a: Atom, stack: seq<Frame>, after: string)
    requires stack != [] && !a.Group? && WellFormedAtom(a, after)
    ensures Scan(PrintAtom(a) + after, stack)
         == (!a.NumberedReference? && !a.NamedReference? && ScanQuantifier(after, None, stack))
  {
    var s := PrintAtom(a) + after;
    assert s[0] == PrintAtom(a)[0];
    DropFirst(PrintAtom(a), after);
    match a
    case Literal(c) =>
    case Escape(c) =>
      assert s[1] == c;
      if |s| > 2 { assert s[2] == after[0]; }
    case NumberedReference(d) => assert s[1] == d;
    case NamedReference(name) => assert s[1] == 'k' && s[2] == '<';
    case Class(negated, items) => ClassPrinted(negated, items, after);
  }

  lemma {:induction false} ScanGroup(t: Term, stack: seq<Frame>, after: string)
    requires stack != [] && t.atom.Group? && WellFormedTerm(t, after) && NoQuantifier(after)
    ensures Scan(PrintTerm(t) + after, stack)
        <==> SafeTerm(t) && Scan(after, Note(stack, TermQuantified(t), TermAlternates(t)))
    decreases t.atom
  {
    var Group(kind, body) := t.atom;
    var tail := ")" + (PrintQuantifier(t.quantifier) + after);
    var inside := PrintDisjunction(body) + tail;
    GroupText(t, after);
    DisjunctionStart(body, tail);
    var within := stack + [Frame(false, false)];
    OpenGroup(kind, inside, stack);
    ScanDisjunction(body, within, tail);
    assert Note(within, Quantified(body), Alternates(body)) == stack + [Frame(Quantified(body), Alternates(body))];
    CloseGroup(t, stack, after);
  }

  lemma GroupText(t: Term, after: string)
    requires t.atom.Group?
    ensures PrintTerm(t) + after
         == "(" + (PrintKind(t.atom.kind) + (PrintDisjunction(t.atom.body) + (")" + (PrintQuantifier(t.quantifier) + after))))
  {
    var k, b, q := PrintKind(t.atom.kind), PrintDisjunction(t.atom.body), PrintQuantifier(t.quantifier);
    assert PrintAtom(t.atom) == "(" + k + b + ")";
    Assoc("(" + k + b + ")", q, after);
    Assoc("(" + k + b, ")", q + after);
    Assoc("(" + k, b, ")" + (q + after));
    Assoc("(", k, b + (")" + (q + after)));
  }

  lemma OpenGroup(kind: GroupKind, inside: string, stack: seq<Frame>)
    requires stack != [] && (kind.Named? ==> GroupName(kind.name)) && !(inside != "" && inside[0] == '?')
    ensures Scan("(" + (PrintKind(kind) + inside), stack) == Scan(inside, stack + [Frame(false, false)])
  {
    var s := "(" + (PrintKind(kind) + inside);
    DropFirst("(", PrintKind(kind) + inside);
    PrefixPrinted(kind, inside);
    DropFirst(PrintKind(kind), inside);
    DropTwice(s, 1, |PrintKind(kind)|);
  }

  lemma CloseGroup(t: Term, stack: seq<Frame>, after: string)
    requires stack != [] && t.atom.Group? && NoQuantifier(after)
    requires t.quantifier.Some? ==> WellFormedBounds(t.quantifier.value.bounds)
    ensures Scan(")" + (PrintQuantifier(t.quantifier) + after), stack + [Frame(Quantified(t.atom.body), Alternates(t.atom.body))])
        <==> !(t.quantifier.Some? && Repeats(t.quantifier.value.bounds) && (Quantified(t.atom.body) || Alternates(t.atom.body)))
             && Scan(after, Note(stack, TermQuantified(t), TermAlternates(t)))
  {
    var group := Frame(Quantified(t.atom.body), Alternates(t.atom.body));
    var tail := PrintQuantifier(t.quantifier) + after;
    OverParenthesis(tail, stack, group);
    if t.quantifier.Some? {
      QuantifierPrinted(t.quantifier.value, after);
      DropFirst(PrintQuantifier(t.quantifier), after);
      NoteTwice(stack, group.quantified, group.alternates, true, false);
    } else {
      assert tail == after;
    }
  }

  lemma OverParenthesis(tail: string, stack: seq<Frame>, group: Frame)
    requires stack != []
    ensures Scan(")" + tail, stack + [group])
         == ScanQuantifier(tail, Some(group), Note(stack, group.quantified, group.alternates))
  {
    assert (stack + [group])[..|stack|] == stack;
    DropFirst(")", tail);
  }

  /** A group's body never starts with the `?` of a group prefix. */
  lemma DisjunctionStart(d: Disjunction, after: string)
    requires WellFormedDisjunction(d, after) && after != "" && Closes(after)
    ensures (PrintDisjunction(d) + after)[0] != '?'
  {
    match d
    case Single(a) => NoQuantifierAhead(a, after);
    case Either(a, rest) =>
      var tail := "|" + PrintDisjunction(rest) + after;
      NoQuantifierAhead(a, tail);
      assert PrintDisjunction(d) + after == PrintAlternative(a) + tail;
  }

  lemma {:induction false} ScanAlternative(a: Alternative, stack: seq<Frame>, after: string)
    requires stack != [] && WellFormedAlternative(a, after) && Separates(after)
    ensures Scan(PrintAlternative(a) + after, stack)
        <==> SafeAlternative(a) && Scan(after, Note(stack, AlternativeQuantified(a), AlternativeAlternates(a)))
    decreases a, 0
  {
    match a
    case Empty =>
      assert PrintAlternative(a) + after == after;
      NoteNothing(stack);
    case Concat(t, rest) =>
      var tail := PrintAlternative(rest) + after;
      assert PrintAlternative(a) + after == PrintTerm(t) + tail;
      NoQuantifierAhead(rest, after);
      ScanTerm(t, stack, tail);
      var stack' := Note(stack, TermQuantified(t), TermAlternates(t));
      ScanAlternative(rest, stack', after);
      NoteTwice(stack, TermQuantified(t), TermAlternates(t), AlternativeQuantified(rest), AlternativeAlternates(rest));
  }

  lemma {:induction false} ScanDisjunction(d: Disjunction, stack: seq<Frame>, after: string)
    requires stack != [] && WellFormedDisjunction(d, after) && Closes(after)
    ensures Scan(PrintDisjunction(d) + after, stack)
        <==> Safe(d) && Scan(after, Note(stack, Quantified(d), Alternates(d)))
    decreases d
  {
    match d
    case Single(a) => ScanAlternative(a, stack, after);
    case Either(a, rest) =>
      ScanLeft(d, stack, after);
      ScanDisjunction(rest, Note(stack, AlternativeQuantified(a), true), after);
      NoteTwice(stack, AlternativeQuantified(a), true, Quantified(rest), Alternates(rest));
  }

  lemma {:induction false} ScanLeft(d: Disjunction, stack: seq<Frame>, after: string)
    requires stack != [] && d.Either? && Closes(after)
    requires WellFormedAlternative(d.left, "|" + PrintDisjunction(d.right) + after)
    ensures Scan(PrintDisjunction(d) + after, stack)
        <==> SafeAlternative(d.left) && Scan(PrintDisjunction(d.right) + after, Note(stack, AlternativeQuantified(d.left), true))
    decreases d.left, 1
  {
    var q, b := AlternativeQuantified(d.left), AlternativeAlternates(d.left);
    EitherText(d, after);
    ScanAlternative(d.left, stack, "|" + PrintDisjunction(d.right) + after);
    OverBar(Note(stack, q, b), PrintDisjunction(d.right), after);
    NoteTwice(stack, q, b, false, true);
  }

  lemma EitherText(d: Disjunction, after: string)
    requires d.Either?
    ensures PrintDisjunction(d) + after == PrintAlternative(d.left) + ("|" + PrintDisjunction(d.right) + after)
  {
    Assoc(PrintAlternative(d.left), "|", PrintDisjunction(d.right));
    Assoc(PrintAlternative(d.left), "|" + PrintDisjunction(d.right), after);
  }

  lemma OverBar(stack: seq<Frame>, body: string, after: string)
    requires stack != []
    ensures Scan("|" + body + after, stack) == Scan(body + after, Note(stack, false, true))
  {
    assert ("|" + body + after)[1..] == body + after;
  }

  /** A tree is a pattern when its pieces are well formed in the text it prints as. */
  predicate Pattern(d: Disjunction) { WellFormedDisjunction(d, "") }

  lemma ScannerDecides(d: Disjunction)
    requires Pattern(d)
    ensures Scan(PrintDisjunction(d), [Frame(false, false)]) <==> Safe(d)
  {
    assert PrintDisjunction(d) + "" == PrintDisjunction(d);
    ScanDisjunction(d, [Frame(false, false)], "");
  }

  // ----- the property, term by term

  function TermsOf(t: Term): set<Term> {
    {t} + if t.atom.Group? then Terms(t.atom.body) else {}
  }

  function AlternativeTerms(a: Alternative): set<Term> {
    match a
    case Empty => {}
    case Concat(t, rest) => TermsOf(t) + AlternativeTerms(rest)
  }

  /** Every term of a pattern, at any depth. */
  function Terms(d: Disjunction): set<Term> {
    match d
    case Single(a) => AlternativeTerms(a)
    case Either(a, rest) => AlternativeTerms(a) + Terms(rest)
  }

  ghost predicate SomeQuantifier(terms: set<Term>) { exists t :: t in terms && t.quantifier.Some? }

  ghost predicate SomeAlternation(terms: set<Term>) {
    exists t :: t in terms && t.atom.Group? && t.atom.body.Either?
  }

  /** No backreference; and a group that may repeat holds neither a quantifier nor a `|`, however deep. */
  ghost predicate Harmless(t: Term) {
    && !t.atom.NumberedReference? && !t.atom.NamedReference?
    && (t.atom.Group? && t.quantifier.Some? && Repeats(t.quantifier.value.bounds) ==>
          && !SomeQuantifier(Terms(t.atom.body))
          && !t.atom.body.Either? && !SomeAlternation(Terms(t.atom.body)))
  }

  lemma {:induction false} TermMeaning(t: Term)
    ensures TermQuantified(t) <==> SomeQuantifier(TermsOf(t))
    ensures TermAlternates(t) <==> SomeAlternation(TermsOf(t))
    ensures SafeTerm(t) <==> forall u :: u in TermsOf(t) ==> Harmless(u)
    decreases t
  {
    assert t in TermsOf(t);
    if t.atom.Group? {
      Meaning(t.atom.body);
    }
  }

  lemma {:induction false} AlternativeMeaning(a: Alternative)
    ensures AlternativeQuantified(a) <==> SomeQuantifier(AlternativeTerms(a))
    ensures AlternativeAlternates(a) <==> SomeAlternation(AlternativeTerms(a))
    ensures SafeAlternative(a) <==> forall u :: u in AlternativeTerms(a) ==> Harmless(u)
    decreases a
  {
    if a.Concat? {
      TermMeaning(a.first);
      AlternativeMeaning(a.rest);
    }
  }

  lemma {:induction false} Meaning(d: Disjunction)
    ensures Quantified(d) <==> SomeQuantifier(Terms(d))
    ensures Alternates(d) <==> d.Either? || SomeAlternation(Terms(d))
    ensures Safe(d) <==> forall u :: u in Terms(d) ==> Harmless(u)
    decreases d
  {
    match d
    case Single(a) => AlternativeMeaning(a);
    case Either(a, rest) =>
      AlternativeMeaning(a);
      Meaning(rest);
  }

  /**
    `isSafeBannedNameRegex`: accepts the text of a pattern exactly when every term of it is
    harmless.  The verdict is that of the tree, so two trees with one text cannot disagree.
   */
  method IsSafeBannedNameRegex(pattern: string) returns (safe: bool)
    ensures safe == Scan(pattern, [Frame(false, false)])
    ensures forall d | Pattern(d) && PrintDisjunction(d) == pattern ::
              safe <==> forall t :: t in Terms(d) ==> Harmless(t)
  {
    safe := ScanPattern(pattern);
    forall d | Pattern(d) && PrintDisjunction(d) == pattern
      ensures safe <==> forall t :: t in Terms(d) ==> Harmless(t)
    {
      ScannerDecides(d);
      Meaning(d);
    }
  }

  method ScanPattern(pattern: string) returns (safe: bool)
    ensures safe == Scan(pattern, [Frame(false, false)])
  {
    hide Scan;
    var stack := [Frame(false, false)];
    var index: nat := 0;
    while index < |pattern|
      invariant stack != []
      invariant Scan(pattern, [Frame(false, false)]) == Scan(Drop(pattern, index), stack)
      decreases |pattern| - index
    {
      if pattern[index] == '|' {
        ScanBar(pattern, index, stack);
        stack := Note(stack, false, true);
        index := index + 1;
      } else if pattern[index] == '(' {
        var prefix := PrefixLength(Drop(pattern, index + 1));
        ScanOpen(pattern, index, stack);
        stack := stack + [Frame(false, false)];
        index := index + 1 + prefix;
      } else {
        var rejected, atomEnd, group;
        rejected, atomEnd, group, stack := ScanAtomAt(pattern, index, stack);
        if rejected {
          return false;
        }
        rejected, index, stack := ScanQuantifierAt(pattern, atomEnd, group, stack);
        if rejected {
          return false;
        }
      }
    }
    assert Drop(pattern, index) == "";
    ScanEnd(stack);
    safe := |stack| == 1;
  }

  lemma ScanBar(pattern: string, index: nat, stack: seq<Frame>)
    requires index < |pattern| && pattern[index] == '|' && stack != []
    ensures Scan(Drop(pattern, index), stack) == Scan(Drop(pattern, index + 1), Note(stack, false, true))
  {
    DropTwice(pattern, index, 1);
  }

  lemma ScanOpen(pattern: string, index: nat, stack: seq<Frame>)
    requires index < |pattern| && pattern[index] == '(' && stack != []
    ensures Scan(Drop(pattern, index), stack)
         == Scan(Drop(pattern, index + 1 + PrefixLength(Drop(pattern, index + 1))), stack + [Frame(false, false)])
  {
    hide PrefixLength, ScanQuantifier, ClassEnd, Note, ItemsEnd;
    DropTwice(pattern, index, 1);
    DropTwice(pattern, index, 1 + PrefixLength(Drop(pattern, index + 1)));
  }

  lemma ScanEnd(stack: seq<Frame>)
    requires stack != []
    ensures Scan("", stack) == (|stack| == 1)
  {}

  /** The atom, or the end of the group, at `index`. */
  method ScanAtomAt(pattern: string, index: nat, groups: seq<Frame>)
    returns (rejected: bool, atomEnd: nat, group: Option<Frame>, stack: seq<Frame>)
    requires index < |pattern| && groups != [] && pattern[index] !in {'|', '('}
    ensures atomEnd > index && stack != []
    ensures Scan(Drop(pattern, index), groups) == (!rejected && ScanQuantifier(Drop(pattern, atomEnd), group, stack))
  {
    hide ReadQuantifier, ClassEnd;
    var ch := pattern[index];
    rejected, atomEnd, group, stack := false, index + 1, None, groups;
    if ch == ')' {
      if |stack| == 1 {
        return true, atomEnd, group, stack;
      }
      var top := stack[|stack| - 1];
      group := Some(top);
      stack := Note(stack[..|stack| - 1], top.quantified, top.alternates);
    } else if ch == '\\' {
      if StartsReference(Drop(pattern, index)) {
        return true, atomEnd, group, stack;
      }
      atomEnd := index + 2;
    } else if ch == '[' {
      atomEnd := ScanClass(pattern, index);
    }
    DropTwice(pattern, index, atomEnd - index);
  }

  method ScanQuantifierAt(pattern: string, atomEnd: nat, group: Option<Frame>, groups: seq<Frame>)
    returns (rejected: bool, next: nat, stack: seq<Frame>)
    requires groups != []
    ensures stack != [] && next >= atomEnd
    ensures ScanQuantifier(Drop(pattern, atomEnd), group, groups) == (!rejected && Scan(Drop(pattern, next), stack))
  {
    hide Scan, ReadQuantifier;
    rejected, next, stack := false, atomEnd, groups;
    var quantifier := ReadQuantifier(Drop(pattern, atomEnd));
    if quantifier.Some? {
      if group.Some? && quantifier.value.repeats && (group.value.quantified || group.value.alternates) {
        rejected := true;
      } else {
        DropTwice(pattern, atomEnd, quantifier.value.length);
        stack := Note(stack, true, false);
        next := atomEnd + quantifier.value.length;
      }
    }
  }

  lemma DropTwice(s: string, i: nat, n: nat)
    ensures Drop(Drop(s, i), n) == Drop(s, i + n)
  {}

  /** Index just past the character class that starts at `index`. */
  method ScanClass(pattern: string, index: nat) returns (atomEnd: nat)
    requires index < |pattern|
    ensures atomEnd == index + ClassEnd(Drop(pattern, index))
  {
    atomEnd := index + 1;
    if atomEnd < |pattern| && pattern[atomEnd] == '^' {
      atomEnd := atomEnd + 1;
    }
    DropTwice(pattern, index, atomEnd - index);
    atomEnd := ScanItems(pattern, atomEnd);
  }

  method ScanItems(pattern: string, start: nat) returns (end: nat)
    ensures end == start + ItemsEnd(Drop(pattern, start))
  {
    end := start;
    while end < |pattern| && pattern[end] != ']'
      invariant start <= end
      invariant end + ItemsEnd(Drop(pattern, end)) == start + ItemsEnd(Drop(pattern, start))
      decreases |pattern| - end
    {
      OverItem(pattern, end);
      end := end + if pattern[end] == '\\' then 2 else 1;
    }
    end := end + 1;
  }

  lemma OverItem(s: string, i: nat)
    requires i < |s| && s[i] != ']'
    ensures var n := if s[i] == '\\' then 2 else 1;
            ItemsEnd(Drop(s, i)) == n + ItemsEnd(Drop(s, i + n))
  {
    DropTwice(s, i, if s[i] == '\\' then 2 else 1);
  }
}
