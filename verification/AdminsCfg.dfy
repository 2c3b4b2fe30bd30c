/** The generated segment of Admins.cfg (packages/shared-config/src/admins-config.ts). */
module AdminsCfg {

  import opened Segments
  import opened Sequences
  import opened Text

  datatype RoleEntry = RoleEntry(name: string, squadPermissions: seq<string>)

  datatype AdminEntry = AdminEntry(eosId: string, roleName: string, comment: string)

  datatype ClanPriorityEntry = ClanPriorityEntry(eosId: string, clanName: string)

  datatype Inputs = Inputs(roles: seq<RoleEntry>, admins: seq<AdminEntry>, clanPriority: seq<ClanPriorityEntry>)

  function ClanPriorityGroup(): string { "ClanPriority" }

  // ----- text that stays on its line

  /** Control characters and the two Unicode separators. */
  predicate LineBreaking(c: char) { c <= '\U{1F}' || '\U{7F}' <= c <= '\U{9F}' || c == '\U{2028}' || c == '\U{2029}' }

  predicate NoBreaks(s: string) { forall i :: 0 <= i < |s| ==> !LineBreaking(s[i]) }

  predicate NoSlash(s: string) { forall i :: 0 <= i < |s| ==> s[i] != '/' }

  predicate NoDoubleSlash(s: string) { forall i :: 0 <= i < |s| - 1 ==> !(s[i] == '/' && s[i + 1] == '/') }

  /** `isAdminsCfgSafeRoleName`. */
  predicate SafeRoleName(name: string) {
    Trim(name) != "" && NoBreaks(name) && forall i :: 0 <= i < |name| ==> name[i] !in {':', ',', '/'}
  }

  /** Which role names are written: some text, and none of the characters that mean something in the file. */
  lemma SafeNamesExactly(name: string)
    ensures SafeRoleName(name) <==>
              && Trim(name) != ""
              && forall i :: 0 <= i < |name| ==>
                   var c := name[i] as int;
                   c > 31 && !(127 <= c <= 159) && c !in {8232, 8233} && c !in {':' as int, ',' as int, '/' as int}
  {
    hide Trim;
  }

  /** Every run of line-breaking characters becomes one space. */
  function FlattenBreaks(s: string): string {
    if s == "" then ""
    else if !LineBreaking(s[0]) then [s[0]] + FlattenBreaks(s[1..])
    else if |s| > 1 && LineBreaking(s[1]) then FlattenBreaks(s[1..])
    else " " + FlattenBreaks(s[1..])
  }

  /** Every run of slashes becomes one slash. */
  function CollapseSlashes(s: string): string {
    if s == "" then ""
    else if |s| > 1 && s[0] == '/' && s[1] == '/' then CollapseSlashes(s[1..])
    else [s[0]] + CollapseSlashes(s[1..])
  }

  /** `toAdminsCfgCommentText`. */
  function CommentText(s: string): string { Trim(CollapseSlashes(FlattenBreaks(s))) }

  lemma {:induction false} Flattened(s: string)
    ensures NoBreaks(FlattenBreaks(s))
    ensures NoBreaks(s) ==> FlattenBreaks(s) == s
  {
    if s != "" {
      Flattened(s[1..]);
      assert [s[0]] + s[1..] == s;
    }
  }

  lemma {:induction false} Collapsed(s: string)
    ensures NoDoubleSlash(CollapseSlashes(s))
    ensures s != "" ==> CollapseSlashes(s) != "" && CollapseSlashes(s)[0] == s[0]
    ensures NoBreaks(s) ==> NoBreaks(CollapseSlashes(s))
    ensures NoDoubleSlash(s) ==> CollapseSlashes(s) == s
  {
    hide LineBreaking;
    if s != "" {
      Collapsed(s[1..]);
      assert s[1..] != "" ==> s[1..][0] == s[1];
      assert [s[0]] + s[1..] == s;
    }
  }

  /** A comment ends on its line, holds no double slash, and is left alone when it was fine already. */
  lemma CommentIsClean(s: string)
    ensures NoBreaks(CommentText(s)) && NoDoubleSlash(CommentText(s)) && Trimmed(CommentText(s))
    ensures NoBreaks(s) && NoDoubleSlash(s) && Trimmed(s) ==> CommentText(s) == s
    ensures CommentText(CommentText(s)) == CommentText(s)
  {
    CommentIsCleanOnce(s);
    CommentIsCleanOnce(CommentText(s));
  }

  lemma CommentIsCleanOnce(s: string)
    ensures NoBreaks(CommentText(s)) && NoDoubleSlash(CommentText(s)) && Trimmed(CommentText(s))
    ensures NoBreaks(s) && NoDoubleSlash(s) && Trimmed(s) ==> CommentText(s) == s
  {
    hide LineBreaking, FlattenBreaks, CollapseSlashes, Trim, IsWhitespace;
    var flat := FlattenBreaks(s);
    var text := CollapseSlashes(flat);
    Flattened(s);
    Collapsed(flat);
    var i, j := TrimIsSlice(text);
    assert forall k :: 0 <= k < j - i ==> text[i..j][k] == text[i + k];
  }

  /** A run of breaks between two texts becomes one space, and a run of slashes one slash. */
  lemma {:induction false} FlattensRun(a: string, run: string, b: string)
    requires run != "" && (forall i :: 0 <= i < |run| ==> LineBreaking(run[i])) && NoBreaks(a)
    requires b != "" ==> !LineBreaking(b[0])
    ensures FlattenBreaks(a + run + b) == a + " " + FlattenBreaks(b)
    decreases |a|, |run|
  {
    hide LineBreaking;
    var s := a + run + b;
    if a != "" {
      FlattensRun(a[1..], run, b);
      assert s[0] == a[0] && s[1..] == a[1..] + run + b;
      assert [a[0]] + a[1..] == a;
    } else if |run| > 1 {
      FlattensRun(a, run[1..], b);
      assert s[0] == run[0] && s[1] == run[1] && s[1..] == a + run[1..] + b;
    } else {
      assert s[0] == run[0] && s[1..] == b;
    }
  }

  lemma {:induction false} CollapsesRun(a: string, run: string, b: string)
    requires run != "" && (forall i :: 0 <= i < |run| ==> run[i] == '/') && NoSlash(a)
    requires b != "" ==> b[0] != '/'
    ensures CollapseSlashes(a + run + b) == a + "/" + CollapseSlashes(b)
    decreases |a|, |run|
  {
    var s := a + run + b;
    if a != "" {
      CollapsesRun(a[1..], run, b);
      assert s[0] == a[0] && s[1..] == a[1..] + run + b;
      assert [a[0]] + a[1..] == a;
    } else if |run| > 1 {
      CollapsesRun(a, run[1..], b);
      assert s[0] == '/' && s[1] == '/' && s[1..] == a + run[1..] + b;
    } else {
      assert s[0] == '/' && s[1..] == b;
      assert |s| > 1 ==> s[1] == b[0];
    }
  }

  // ----- the lines

  function JoinComma(parts: seq<string>): string {
    if |parts| == 0 then "" else if |parts| == 1 then parts[0] else parts[0] + "," + JoinComma(parts[1..])
  }

  function GroupLine(role: RoleEntry): string { "Group=" + role.name + ":" + JoinComma(role.squadPermissions) }

  function ClanGroupLine(): string { "Group=" + ClanPriorityGroup() + ":" + "reserve" }

  function AdminBase(eosId: string, roleName: string): string { "Admin=" + eosId + ":" + roleName }

  function AdminLine(admin: AdminEntry): string {
    var comment := if admin.comment == "" then "" else CommentText(admin.comment);
    if comment == "" then AdminBase(admin.eosId, admin.roleName)
    else AdminBase(admin.eosId, admin.roleName) + " // " + comment
  }

  function ClanLine(entry: ClanPriorityEntry): string {
    AdminBase(entry.eosId, ClanPriorityGroup()) + " // " + ("clan:" + CommentText(entry.clanName))
  }

  type Order = (string, string) -> bool

  function Groups(inputs: Inputs, order: Order, plain: Order): seq<RoleEntry> {
    var kept := Filter(inputs.roles, (r: RoleEntry) => r.squadPermissions != [] && SafeRoleName(r.name));
    Sort(Map(kept, (r: RoleEntry) => RoleEntry(r.name, Sort(r.squadPermissions, plain))),
         (a: RoleEntry, b: RoleEntry) => order(a.name, b.name))
  }

  predicate Named(groups: seq<RoleEntry>, name: string) { exists i :: 0 <= i < |groups| && groups[i].name == name }

  /** By role name, then by id. */
  predicate AdminOrder(order: Order, a: AdminEntry, b: AdminEntry) {
    order(a.roleName, b.roleName) && (order(b.roleName, a.roleName) ==> order(a.eosId, b.eosId))
  }

  function Admins(inputs: Inputs, groups: seq<RoleEntry>, order: Order): seq<AdminEntry> {
    Sort(Filter(inputs.admins, (a: AdminEntry) => Named(groups, a.roleName)),
         (a: AdminEntry, b: AdminEntry) => AdminOrder(order, a, b))
  }

  function Clan(inputs: Inputs, order: Order): seq<ClanPriorityEntry> {
    Sort(inputs.clanPriority, (a: ClanPriorityEntry, b: ClanPriorityEntry) => order(a.eosId, b.eosId))
  }

  predicate EmitsClanGroup(inputs: Inputs, groups: seq<RoleEntry>) {
    inputs.clanPriority != [] && !Named(groups, ClanPriorityGroup())
  }

  function GroupLines(inputs: Inputs, groups: seq<RoleEntry>): seq<string> {
    Map(groups, GroupLine) + if EmitsClanGroup(inputs, groups) then [ClanGroupLine()] else []
  }

  function AdminLines(admins: seq<AdminEntry>, clan: seq<ClanPriorityEntry>): seq<string> {
    Map(admins, AdminLine) + Map(clan, ClanLine)
  }

  /** Everything between the marker lines. */
  function Middle(inputs: Inputs, order: Order, plain: Order): seq<string> {
    var groups := Groups(inputs, order, plain);
    var groupLines := GroupLines(inputs, groups);
    var adminLines := AdminLines(Admins(inputs, groups, order), Clan(inputs, order));
    groupLines + (if groupLines != [] && adminLines != [] then [""] else []) + adminLines
  }

  predicate Plain(s: string) { NoSlash(s) && NoBreaks(s) }

  /** EOS ids and permission keys are plain; names, comments and clan names may be anything. */
  predicate PlainIds(inputs: Inputs) {
    && (forall i :: 0 <= i < |inputs.admins| ==> Plain(inputs.admins[i].eosId))
    && (forall i :: 0 <= i < |inputs.clanPriority| ==> Plain(inputs.clanPriority[i].eosId))
    && (forall i, k :: 0 <= i < |inputs.roles| && 0 <= k < |inputs.roles[i].squadPermissions| ==>
          Plain(inputs.roles[i].squadPermissions[k]))
  }

  // ----- every line is quiet

  predicate GoodLine(line: string) { NoBreaks(line) && Quiet(line) }

  lemma PlainIsGood(line: string)
    requires Plain(line)
    ensures GoodLine(line)
  {}

  lemma PlainConcat(a: string, b: string)
    requires Plain(a) && Plain(b)
    ensures Plain(a + b)
  {
    hide LineBreaking;
  }

  lemma CommentedIsGood(a: string, comment: string)
    requires Plain(a) && NoBreaks(comment) && NoDoubleSlash(comment)
    ensures GoodLine(a + " // " + comment)
  {
    var s := a + " // " + comment;
    assert s[|a|..|a| + 4] == " // ";
    assert s[|a|] == ' ' && s[|a| + 1] == '/' && s[|a| + 2] == '/' && s[|a| + 3] == ' ';
    assert forall i :: 0 <= i < |a| ==> s[i] == a[i];
    assert forall i :: |a| + 4 <= i < |s| ==> s[i] == comment[i - |a| - 4];
  }

  lemma PlainPunctuation()
    ensures Plain("") && Plain(",") && Plain(":") && Plain("Group=") && Plain("Admin=") && Plain("reserve") && Plain(ClanPriorityGroup())
  {}

  lemma {:induction false} JoinedIsPlain(parts: seq<string>)
    requires forall i :: 0 <= i < |parts| ==> Plain(parts[i])
    ensures Plain(JoinComma(parts))
  {
    hide Plain;
    PlainPunctuation();
    if |parts| > 1 {
      JoinedIsPlain(parts[1..]);
      PlainConcat(parts[0], ",");
      PlainConcat(parts[0] + ",", JoinComma(parts[1..]));
    }
  }

  lemma SafeIsPlain(name: string)
    requires SafeRoleName(name)
    ensures Plain(name)
  {
    hide Trim;
  }

  lemma GroupLineIsGood(role: RoleEntry)
    requires Plain(role.name) && forall i :: 0 <= i < |role.squadPermissions| ==> Plain(role.squadPermissions[i])
    ensures GoodLine(GroupLine(role))
  {
    hide Plain;
    PlainPunctuation();
    JoinedIsPlain(role.squadPermissions);
    PlainConcat("Group=", role.name);
    PlainConcat("Group=" + role.name, ":");
    PlainConcat("Group=" + role.name + ":", JoinComma(role.squadPermissions));
    PlainIsGood(GroupLine(role));
  }

  lemma AdminBaseIsPlain(eosId: string, roleName: string)
    requires Plain(eosId) && Plain(roleName)
    ensures Plain(AdminBase(eosId, roleName))
  {
    hide Plain;
    PlainPunctuation();
    PlainConcat("Admin=", eosId);
    PlainConcat("Admin=" + eosId, ":");
    PlainConcat("Admin=" + eosId + ":", roleName);
  }

  lemma AdminLineIsGood(admin: AdminEntry)
    requires Plain(admin.eosId) && Plain(admin.roleName)
    ensures GoodLine(AdminLine(admin))
  {
    hide Plain, GoodLine, NoBreaks, NoDoubleSlash, CommentText, AdminBase;
    var base := AdminBase(admin.eosId, admin.roleName);
    AdminBaseIsPlain(admin.eosId, admin.roleName);
    PlainIsGood(base);
    CommentIsClean(admin.comment);
    CommentedIsGood(base, CommentText(admin.comment));
  }

  lemma ClanLineIsGood(entry: ClanPriorityEntry)
    requires Plain(entry.eosId)
    ensures GoodLine(ClanLine(entry))
  {
    hide Plain, GoodLine, CommentText, AdminBase, LineBreaking;
    PlainPunctuation();
    AdminBaseIsPlain(entry.eosId, ClanPriorityGroup());
    CommentIsClean(entry.clanName);
    ClanComment(CommentText(entry.clanName));
    CommentedIsGood(AdminBase(entry.eosId, ClanPriorityGroup()), "clan:" + CommentText(entry.clanName));
  }

  lemma ClanComment(text: string)
    requires NoBreaks(text) && NoDoubleSlash(text)
    ensures NoBreaks("clan:" + text) && NoDoubleSlash("clan:" + text)
  {
    var s := "clan:" + text;
    assert forall i :: 5 <= i < |s| ==> s[i] == text[i - 5];
    assert s[..5] == "clan:";
  }

  ghost predicate AllGood(lines: seq<string>) { forall i :: 0 <= i < |lines| ==> GoodLine(lines[i]) }

  /** The groups written are the roles with permissions and a safe name, and the admins written hold one of them. */
  lemma GroupsAreSafe(inputs: Inputs, order: Order, plain: Order, i: nat)
    requires PlainIds(inputs) && i < |Groups(inputs, order, plain)|
    ensures var g := Groups(inputs, order, plain)[i];
            Plain(g.name) && forall k :: 0 <= k < |g.squadPermissions| ==> Plain(g.squadPermissions[k])
  {
    hide Plain, SafeRoleName, Sort;
    var kept := Filter(inputs.roles, (r: RoleEntry) => r.squadPermissions != [] && SafeRoleName(r.name));
    var mapped := Map(kept, (r: RoleEntry) => RoleEntry(r.name, Sort(r.squadPermissions, plain)));
    SortedMembers(mapped, (a: RoleEntry, b: RoleEntry) => order(a.name, b.name));
    var g := Groups(inputs, order, plain)[i];
    assert g in mapped;
    var j :| 0 <= j < |mapped| && mapped[j] == g;
    var r := kept[j];
    assert r in kept;
    SafeIsPlain(g.name);
    SortedMembers(r.squadPermissions, plain);
    forall k | 0 <= k < |g.squadPermissions|
      ensures Plain(g.squadPermissions[k])
    {
      assert g.squadPermissions[k] in r.squadPermissions;
    }
  }

  lemma GroupLinesAreGood(inputs: Inputs, order: Order, plain: Order)
    requires PlainIds(inputs)
    ensures AllGood(GroupLines(inputs, Groups(inputs, order, plain)))
  {
    hide Plain, GoodLine, Groups, GroupLine, PlainIds, ClanGroupLine, EmitsClanGroup;
    var groups := Groups(inputs, order, plain);
    forall i | 0 <= i < |groups|
      ensures GoodLine(GroupLine(groups[i]))
    {
      GroupsAreSafe(inputs, order, plain, i);
      GroupLineIsGood(groups[i]);
    }
    ClanGroupIsGood();
  }

  lemma ClanGroupIsGood()
    ensures GoodLine(ClanGroupLine())
  {
    GroupLineIsGood(RoleEntry(ClanPriorityGroup(), ["reserve"])) by { PlainPunctuation(); }
  }

  lemma AdminLinesAreGood(inputs: Inputs, order: Order, plain: Order)
    requires PlainIds(inputs)
    ensures AllGood(AdminLines(Admins(inputs, Groups(inputs, order, plain), order), Clan(inputs, order)))
  {
    hide Plain, GoodLine, Groups, AdminLine, ClanLine, Sort, Filter;
    var groups := Groups(inputs, order, plain);
    var admins, clan := Admins(inputs, groups, order), Clan(inputs, order);
    forall i | 0 <= i < |admins|
      ensures GoodLine(AdminLine(admins[i]))
    {
      var a := admins[i];
      SortedMembers(Filter(inputs.admins, (a: AdminEntry) => Named(groups, a.roleName)),
                    (a: AdminEntry, b: AdminEntry) => AdminOrder(order, a, b));
      assert a in admins;
      assert a in inputs.admins && Named(groups, a.roleName);
      var g :| 0 <= g < |groups| && groups[g].name == a.roleName;
      GroupsAreSafe(inputs, order, plain, g);
      AdminLineIsGood(a);
    }
    forall i | 0 <= i < |clan|
      ensures GoodLine(ClanLine(clan[i]))
    {
      SortedMembers(inputs.clanPriority, (a: ClanPriorityEntry, b: ClanPriorityEntry) => order(a.eosId, b.eosId));
      assert clan[i] in clan;
      assert clan[i] in inputs.clanPriority;
      ClanLineIsGood(clan[i]);
    }
  }

  /**
    Whatever the names, comments and clan names: the body is a managed segment, it splits into the
    marker lines and exactly one line per counted group and admin (and a blank one between the two
    kinds), and every line stays a line.
   */
  lemma SegmentKeepsItsShape(inputs: Inputs, order: Order, plain: Order)
    requires PlainIds(inputs)
    ensures var middle := Middle(inputs, order, plain);
            Managed(BodyOf(middle)) && AllGood(middle) && Lines(BodyOf(middle)) == [BeginLine()] + middle + [EndMarker()]
  {
    hide Groups, Admins, Clan, GroupLines, AdminLines, GoodLine, Managed, Lines, BodyOf, OneLine, Quiet, BeginLine, EndMarker;
    GroupLinesAreGood(inputs, order, plain);
    AdminLinesAreGood(inputs, order, plain);
    var middle := Middle(inputs, order, plain);
    assert GoodLine("") by { BlankIsGood(); }
    forall i | 0 <= i < |middle|
      ensures OneLine(middle[i]) && Quiet(middle[i])
    {
      GoodParts(middle[i]);
    }
    QuietLinesMakeSegment(middle);
  }

  /** So the next sync finds exactly this body, wherever it was spliced in. */
  lemma SplicedBodyIsFound(inputs: Inputs, order: Order, plain: Order, content: string)
    requires PlainIds(inputs)
    ensures var body := BodyOf(Middle(inputs, order, plain));
            var found := Find(Splice(content, body));
            found.Some? && found.value.segment == body
  {
    hide Splice, Find, Middle, BodyOf, PlainIds, AllGood, Lines, Managed;
    SegmentKeepsItsShape(inputs, order, plain);
    FindAfterSplice(content, BodyOf(Middle(inputs, order, plain)));
  }

  // ----- the order of the input does not matter

  /** A role by its name and its permission keys, whatever their order. */
  datatype RoleKey = RoleKey(name: string, keys: multiset<string>)

  function KeyOf(role: RoleEntry): RoleKey { RoleKey(role.name, multiset(role.squadPermissions)) }

  ghost predicate SameEntries(a: Inputs, b: Inputs) {
    && multiset(Map(a.roles, KeyOf)) == multiset(Map(b.roles, KeyOf))
    && multiset(a.admins) == multiset(b.admins)
    && multiset(a.clanPriority) == multiset(b.clanPriority)
  }

  /** The order tells entries apart: roles by name, admins by role and id, clan members by id. */
  ghost predicate Distinguishable(inputs: Inputs, order: Order) {
    && (forall a, b :: a in inputs.roles && b in inputs.roles && order(a.name, b.name) && order(b.name, a.name) ==> KeyOf(a) == KeyOf(b))
    && (forall a, b :: a in inputs.admins && b in inputs.admins && AdminOrder(order, a, b) && AdminOrder(order, b, a) ==> a == b)
    && (forall a, b :: a in inputs.clanPriority && b in inputs.clanPriority && order(a.eosId, b.eosId) && order(b.eosId, a.eosId) ==> a == b)
  }

  ghost predicate Strict(plain: Order) { TotalPreorder(plain) && Antisymmetric(plain) }

  /** The written form of a role depends on its key only. */
  lemma KeyDecidesGroup(x: RoleEntry, y: RoleEntry, plain: Order)
    requires Strict(plain) && KeyOf(x) == KeyOf(y)
    ensures (x.squadPermissions == []) == (y.squadPermissions == [])
    ensures x.name == y.name && Sort(x.squadPermissions, plain) == Sort(y.squadPermissions, plain)
  {
    hide Sort;
    SameSize(x.squadPermissions, y.squadPermissions);
    SortIgnoresOrder(x.squadPermissions, y.squadPermissions, plain);
  }

  lemma GroupsIgnoreOrder(inputs: Inputs, other: Inputs, order: Order, plain: Order)
    requires TotalPreorder(order) && Strict(plain) && SameEntries(inputs, other) && Distinguishable(inputs, order)
    ensures Groups(inputs, order, plain) == Groups(other, order, plain)
  {
    hide SafeRoleName, Sort, Filter, Strict, Antisymmetric, KeyOf;
    var p := (r: RoleEntry) => r.squadPermissions != [] && SafeRoleName(r.name);
    var f := (r: RoleEntry) => RoleEntry(r.name, Sort(r.squadPermissions, plain));
    var le := (a: RoleEntry, b: RoleEntry) => order(a.name, b.name);
    forall x, y | KeyOf(x) == KeyOf(y)
      ensures p(x) == p(y) && f(x) == f(y)
    {
      KeyDecidesGroup(x, y, plain);
    }
    KeyDecides(inputs.roles, other.roles, KeyOf, p, f);
    var kept := Filter(inputs.roles, p);
    MappedAreKeyed(inputs.roles, kept, plain, order);
    SortIgnoresOrder(Map(kept, f), Map(Filter(other.roles, p), f), le);
  }

  lemma MappedAreKeyed(roles: seq<RoleEntry>, kept: seq<RoleEntry>, plain: Order, order: Order)
    requires Strict(plain) && forall r :: r in kept ==> r in roles
    requires forall a, b :: a in roles && b in roles && order(a.name, b.name) && order(b.name, a.name) ==> KeyOf(a) == KeyOf(b)
    ensures Keyed(Map(kept, (r: RoleEntry) => RoleEntry(r.name, Sort(r.squadPermissions, plain))),
                  (a: RoleEntry, b: RoleEntry) => order(a.name, b.name))
  {
    hide Sort, KeyOf, Strict;
    var mapped := Map(kept, (r: RoleEntry) => RoleEntry(r.name, Sort(r.squadPermissions, plain)));
    forall x, y | x in mapped && y in mapped && order(x.name, y.name) && order(y.name, x.name)
      ensures x == y
    {
      var i :| 0 <= i < |mapped| && mapped[i] == x;
      var j :| 0 <= j < |mapped| && mapped[j] == y;
      assert kept[i] in kept && kept[j] in kept;
      KeyDecidesGroup(kept[i], kept[j], plain);
    }
  }

  lemma AdminsIgnoreOrder(inputs: Inputs, other: Inputs, groups: seq<RoleEntry>, order: Order)
    requires TotalPreorder(order) && SameEntries(inputs, other) && Distinguishable(inputs, order)
    ensures Admins(inputs, groups, order) == Admins(other, groups, order)
  {
    hide Sort, Filter, Named;
    var p := (a: AdminEntry) => Named(groups, a.roleName);
    var le := (a: AdminEntry, b: AdminEntry) => AdminOrder(order, a, b);
    FilterIgnoresOrder(inputs.admins, other.admins, p);
    LexicographicIsTotal(order);
    SortIgnoresOrder(Filter(inputs.admins, p), Filter(other.admins, p), le);
  }

  lemma LexicographicIsTotal(order: Order)
    requires TotalPreorder(order)
    ensures TotalPreorder((a: AdminEntry, b: AdminEntry) => AdminOrder(order, a, b))
  {
    forall a: AdminEntry, b: AdminEntry, c: AdminEntry | AdminOrder(order, a, b) && AdminOrder(order, b, c)
      ensures AdminOrder(order, a, c)
    {
      assert order(a.roleName, c.roleName);
    }
  }

  lemma ClanIgnoresOrder(inputs: Inputs, other: Inputs, groups: seq<RoleEntry>, order: Order)
    requires TotalPreorder(order) && SameEntries(inputs, other) && Distinguishable(inputs, order)
    ensures Clan(inputs, order) == Clan(other, order) && GroupLines(inputs, groups) == GroupLines(other, groups)
  {
    hide Sort, Named, GroupLine, ClanGroupLine;
    var le := (a: ClanPriorityEntry, b: ClanPriorityEntry) => order(a.eosId, b.eosId);
    assert forall a, b :: le(a, b) == order(a.eosId, b.eosId);
    SortIgnoresOrder(inputs.clanPriority, other.clanPriority, le);
    SameSize(inputs.clanPriority, other.clanPriority);
  }

  /**
    The same entries in any order, the permission keys of a role included, give the same bytes; so a
    hash of the body tells whether anything changed.
   */
  lemma SameBytesInAnyOrder(inputs: Inputs, other: Inputs, order: Order, plain: Order)
    requires TotalPreorder(order) && Strict(plain) && SameEntries(inputs, other) && Distinguishable(inputs, order)
    ensures BodyOf(Middle(inputs, order, plain)) == BodyOf(Middle(other, order, plain))
  {
    hide Groups, Admins, Clan, AdminLines, GroupLines, TotalPreorder, Strict, SameEntries, Distinguishable, BodyOf;
    var groups := Groups(inputs, order, plain);
    GroupsIgnoreOrder(inputs, other, order, plain);
    AdminsIgnoreOrder(inputs, other, groups, order);
    ClanIgnoresOrder(inputs, other, groups, order);
  }

  lemma BlankIsGood()
    ensures GoodLine("")
  {}

  lemma GoodParts(line: string)
    requires GoodLine(line)
    ensures OneLine(line) && Quiet(line)
  {}

  /** `buildManagedSegmentBody`. */
  method BuildManagedSegmentBody(inputs: Inputs, order: Order, plain: Order) returns (body: string, groupsCount: int, adminsCount: int)
    ensures body == BodyOf(Middle(inputs, order, plain))
    ensures groupsCount == |GroupLines(inputs, Groups(inputs, order, plain))|
    ensures adminsCount == |Admins(inputs, Groups(inputs, order, plain), order)| + |inputs.clanPriority|
    ensures PlainIds(inputs) ==>
              && Managed(body)
              && |Lines(body)| == 2 + groupsCount + adminsCount + if groupsCount > 0 && adminsCount > 0 then 1 else 0
  {
    hide *;
    var groups := Groups(inputs, order, plain);
    var admins := Admins(inputs, groups, order);
    var clan := Clan(inputs, order);
    var emitClanGroup := EmitsClanGroup(inputs, groups);
    groupsCount := |groups| + if emitClanGroup then 1 else 0;
    adminsCount := |admins| + |clan|;
    var groupLines := PushGroups(groups, emitClanGroup);
    var adminLines := PushAdmins(admins, clan);
    Counts(inputs, order, plain);
    var separator := if groupsCount > 0 && adminsCount > 0 then [""] else [];
    Assembled(inputs, order, plain, separator);
    body := Join([BeginLine()] + groupLines + separator + adminLines + [EndMarker()]);
    ghost var plainIds := PlainIds(inputs);
    if plainIds {
      SegmentKeepsItsShape(inputs, order, plain);
    }
  }

  method PushGroups(groups: seq<RoleEntry>, emitClanGroup: bool) returns (lines: seq<string>)
    ensures lines == Map(groups, GroupLine) + if emitClanGroup then [ClanGroupLine()] else []
  {
    hide GroupLine, ClanGroupLine;
    lines := [];
    for i := 0 to |groups|
      invariant lines == Map(groups, GroupLine)[..i]
    {
      lines := lines + [GroupLine(groups[i])];
    }
    if emitClanGroup {
      lines := lines + [ClanGroupLine()];
    }
  }

  method PushAdmins(admins: seq<AdminEntry>, clan: seq<ClanPriorityEntry>) returns (lines: seq<string>)
    ensures lines == AdminLines(admins, clan)
  {
    hide AdminLine, ClanLine;
    lines := [];
    for i := 0 to |admins|
      invariant lines == Map(admins, AdminLine)[..i]
    {
      lines := lines + [AdminLine(admins[i])];
    }
    for i := 0 to |clan|
      invariant lines == Map(admins, AdminLine) + Map(clan, ClanLine)[..i]
    {
      lines := lines + [ClanLine(clan[i])];
    }
  }

  lemma Counts(inputs: Inputs, order: Order, plain: Order)
    ensures
      var groups := Groups(inputs, order, plain);
      var groupLines := Map(groups, GroupLine) + if EmitsClanGroup(inputs, groups) then [ClanGroupLine()] else [];
      && groupLines == GroupLines(inputs, groups)
      && |groupLines| == |groups| + if EmitsClanGroup(inputs, groups) then 1 else 0
    ensures
      var admins, clan := Admins(inputs, Groups(inputs, order, plain), order), Clan(inputs, order);
      |AdminLines(admins, clan)| == |admins| + |clan| && |clan| == |inputs.clanPriority|
  {
    hide Groups, Admins, EmitsClanGroup, GroupLine, ClanGroupLine, AdminLine, ClanLine;
  }

  lemma Assembled(inputs: Inputs, order: Order, plain: Order, separator: seq<string>)
    requires
      var groups := Groups(inputs, order, plain);
      var g, a := GroupLines(inputs, groups), AdminLines(Admins(inputs, groups, order), Clan(inputs, order));
      separator == if |g| > 0 && |a| > 0 then [""] else []
    ensures
      var groups := Groups(inputs, order, plain);
      var g, a := GroupLines(inputs, groups), AdminLines(Admins(inputs, groups, order), Clan(inputs, order));
      && Middle(inputs, order, plain) == g + separator + a
      && Join([BeginLine()] + g + separator + a + [EndMarker()]) == BodyOf(Middle(inputs, order, plain))
  {
    hide Groups, Admins, Clan, GroupLines, AdminLines, BeginLine, EndMarker, Join;
    var groups := Groups(inputs, order, plain);
    var g, a := GroupLines(inputs, groups), AdminLines(Admins(inputs, groups, order), Clan(inputs, order));
    Regroup(BeginLine(), g, separator, a, EndMarker());
  }

  lemma Regroup(first: string, a: seq<string>, b: seq<string>, c: seq<string>, last: string)
    ensures [first] + a + b + c + [last] == [first] + (a + b + c) + [last]
  {}
}
