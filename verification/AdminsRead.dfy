/**
  What a reader of Admins.cfg gets out of the generated segment: a line is `Group=name:key,key` or
  `Admin=id:group`, with an optional comment behind two slashes.
 */
module AdminsRead {

  import opened Wrappers
  import opened AdminsCfg
  import opened Segments
  import opened Sequences
  import opened Text

  datatype Entry =
    | Admin(eosId: string, group: string, comment: Option<string>)
    | Group(name: string, keys: seq<string>)
    | Other

  // ----- the reader

  function CutComment(line: string): (string, Option<string>) {
    var at := IndexOf(line, " // ", 0);
    if at.None? then (line, None) else (line[..at.value], Some(line[at.value + 4..]))
  }

  /** What is in front of the first `c`, and what is behind it. */
  function SplitAt(s: string, c: char): Option<(string, string)> {
    if s == "" then None
    else if s[0] == c then Some(("", s[1..]))
    else
      var rest := SplitAt(s[1..], c);
      if rest.None? then None else Some(([s[0]] + rest.value.0, rest.value.1))
  }

  function SplitAll(s: string, c: char): seq<string>
    decreases |s|
  {
    var first := SplitAt(s, c);
    if first.None? then [s] else if |first.value.1| < |s| then [first.value.0] + SplitAll(first.value.1, c) else []
  }

  function ReadLine(line: string): Entry {
    var (text, comment) := CutComment(line);
    var kind := SplitAt(text, '=');
    if kind.None? then Other
    else
      var parts := SplitAt(kind.value.1, ':');
      if parts.None? then Other
      else if kind.value.0 == "Admin" then Admin(parts.value.0, parts.value.1, comment)
      else if kind.value.0 == "Group" then Group(parts.value.0, SplitAll(parts.value.1, ','))
      else Other
  }

  // ----- one line

  predicate Without(s: string, c: char) { forall i :: 0 <= i < |s| ==> s[i] != c }

  lemma {:induction false} SplitsAtFirst(x: string, c: char, y: string)
    requires Without(x, c)
    ensures SplitAt(x + [c] + y, c) == Some((x, y))
  {
    var s := x + [c] + y;
    if x == "" {
      assert s[0] == c && s[1..] == y;
    } else {
      SplitsAtFirst(x[1..], c, y);
      assert s[0] == x[0] && s[1..] == x[1..] + [c] + y;
      assert [x[0]] + x[1..] == x;
    }
  }

  lemma {:induction false} NothingToSplit(x: string, c: char)
    requires Without(x, c)
    ensures SplitAt(x, c) == None
  {
    if x != "" {
      NothingToSplit(x[1..], c);
    }
  }

  lemma {:induction false} SplitsJoined(parts: seq<string>)
    requires parts != [] && forall i :: 0 <= i < |parts| ==> Without(parts[i], ',')
    ensures SplitAll(JoinComma(parts), ',') == parts
  {
    hide SplitAt;
    if |parts| == 1 {
      NothingToSplit(parts[0], ',');
    } else {
      SplitsJoined(parts[1..]);
      SplitsAtFirst(parts[0], ',', JoinComma(parts[1..]));
      assert parts == [parts[0]] + parts[1..];
    }
  }

  /** A text without slashes has no comment; with one behind it, the comment is all that follows. */
  lemma CutsComment(base: string, comment: string)
    requires NoSlash(base)
    ensures CutComment(base) == (base, None)
    ensures CutComment(base + " // " + comment) == (base, Some(comment))
  {
    var line, mark := base + " // " + comment, " // ";
    assert mark[1] == '/';
    forall j: nat
      ensures !Occurs(base, mark, j)
      ensures j < |base| ==> !Occurs(line, mark, j)
    {
      assert j + 4 <= |line| ==> line[j..j + 4][1] == line[j + 1];
      assert j + 4 <= |base| ==> base[j..j + 4][1] == base[j + 1];
    }
    assert line[|base|..|base| + 4] == mark;
    FirstIndex(line, mark, 0, |base|);
    assert line[..|base|] == base && line[|base| + 4..] == comment;
  }

  lemma ReadsKind(kind: string, first: string, second: string)
    requires Without(kind, '=') && Without(first, ':')
    ensures SplitAt(kind + "=" + first + ":" + second, '=') == Some((kind, first + ":" + second))
    ensures SplitAt(first + ":" + second, ':') == Some((first, second))
  {
    SplitsAtFirst(kind, '=', first + ":" + second);
    assert kind + "=" + first + ":" + second == kind + ['='] + (first + ":" + second);
    SplitsAtFirst(first, ':', second);
    assert first + ":" + second == first + [':'] + second;
  }

  lemma ReadsBase(eosId: string, group: string, comment: string)
    requires Plain(eosId) && Plain(group) && Without(eosId, ':')
    ensures ReadLine(AdminBase(eosId, group)) == Admin(eosId, group, None)
    ensures ReadLine(AdminBase(eosId, group) + " // " + comment) == Admin(eosId, group, Some(comment))
  {
    hide CutComment, SplitAt, SplitAll, LineBreaking;
    AdminBaseIsPlain(eosId, group);
    CutsComment(AdminBase(eosId, group), comment);
    assert AdminBase(eosId, group) == "Admin" + "=" + eosId + ":" + group;
    ReadsKind("Admin", eosId, group);
  }

  /** The comment as it is written, if it is. */
  function Written(comment: string): Option<string> {
    if comment == "" || CommentText(comment) == "" then None else Some(CommentText(comment))
  }

  lemma ReadsAdminLine(admin: AdminEntry)
    requires Plain(admin.eosId) && Plain(admin.roleName) && Without(admin.eosId, ':')
    ensures ReadLine(AdminLine(admin)) == Admin(admin.eosId, admin.roleName, Written(admin.comment))
  {
    hide ReadLine, CommentText, AdminBase, Plain;
    ReadsBase(admin.eosId, admin.roleName, CommentText(admin.comment));
  }

  lemma ReadsClanLine(entry: ClanPriorityEntry)
    requires Plain(entry.eosId) && Without(entry.eosId, ':')
    ensures ReadLine(ClanLine(entry)) == Admin(entry.eosId, "ClanPriority", Some("clan:" + CommentText(entry.clanName)))
  {
    hide ReadLine, CommentText, AdminBase, Plain;
    PlainPunctuation();
    ReadsBase(entry.eosId, ClanPriorityGroup(), "clan:" + CommentText(entry.clanName));
  }

  lemma ReadsGroupLine(role: RoleEntry)
    requires Plain(role.name) && Without(role.name, ':') && role.squadPermissions != []
    requires forall i :: 0 <= i < |role.squadPermissions| ==> Plain(role.squadPermissions[i]) && Without(role.squadPermissions[i], ',')
    ensures ReadLine(GroupLine(role)) == Group(role.name, role.squadPermissions)
  {
    hide CutComment, SplitAt, SplitAll, JoinComma, LineBreaking, Plain;
    GroupLineIsPlain(role);
    CutsComment(GroupLine(role), "");
    assert GroupLine(role) == "Group" + "=" + role.name + ":" + JoinComma(role.squadPermissions);
    ReadsKind("Group", role.name, JoinComma(role.squadPermissions));
    SplitsJoined(role.squadPermissions);
  }

  lemma GroupLineIsPlain(role: RoleEntry)
    requires Plain(role.name) && forall i :: 0 <= i < |role.squadPermissions| ==> Plain(role.squadPermissions[i])
    ensures NoSlash(GroupLine(role))
  {
    hide Plain, JoinComma;
    PlainPunctuation();
    JoinedIsPlain(role.squadPermissions);
    PlainConcat("Group=", role.name);
    PlainConcat("Group=" + role.name, ":");
    PlainConcat("Group=" + role.name + ":", JoinComma(role.squadPermissions));
    PlainHasNoSlash(GroupLine(role));
  }

  lemma PlainHasNoSlash(s: string)
    requires Plain(s)
    ensures NoSlash(s)
  {}

  lemma ReadsClanGroupLine()
    ensures ReadLine(ClanGroupLine()) == Group("ClanPriority", ["reserve"])
  {
    hide ReadLine;
    PlainPunctuation();
    assert Without("ClanPriority", ':') && Without("reserve", ',');
    var clan := RoleEntry(ClanPriorityGroup(), ["reserve"]);
    assert JoinComma(clan.squadPermissions) == "reserve";
    ReadsGroupLine(clan);
  }

  lemma ReadsBlank()
    ensures ReadLine("") == Other
  {
    CutsComment("", "");
  }

  // ----- the whole segment

  /** Ids hold no colon and permission keys no comma. */
  predicate Separable(inputs: Inputs) {
    && (forall i :: 0 <= i < |inputs.admins| ==> Without(inputs.admins[i].eosId, ':'))
    && (forall i :: 0 <= i < |inputs.clanPriority| ==> Without(inputs.clanPriority[i].eosId, ':'))
    && (forall i, k :: 0 <= i < |inputs.roles| && 0 <= k < |inputs.roles[i].squadPermissions| ==>
          Without(inputs.roles[i].squadPermissions[k], ','))
  }

  /** A role is written when it has a permission and a safe name. */
  predicate IsWritten(role: RoleEntry) { role.squadPermissions != [] && SafeRoleName(role.name) }

  ghost predicate NameIsWritten(inputs: Inputs, name: string) { exists r :: r in inputs.roles && r.name == name && IsWritten(r) }

  function AdminRead(admin: AdminEntry): Entry { Admin(admin.eosId, admin.roleName, Written(admin.comment)) }

  function ClanRead(entry: ClanPriorityEntry): Entry {
    Admin(entry.eosId, "ClanPriority", Some("clan:" + CommentText(entry.clanName)))
  }

  function GroupRead(role: RoleEntry): Entry { Group(role.name, role.squadPermissions) }

  lemma GroupsAreReadable(inputs: Inputs, order: Order, plain: Order, i: nat)
    requires PlainIds(inputs) && Separable(inputs) && i < |Groups(inputs, order, plain)|
    ensures var g := Groups(inputs, order, plain)[i]; ReadLine(GroupLine(g)) == GroupRead(g)
  {
    hide Plain, SafeRoleName, Sort, ReadLine, GroupLine, Without;
    GroupsAreSafe(inputs, order, plain, i);
    var kept := Filter(inputs.roles, (r: RoleEntry) => r.squadPermissions != [] && SafeRoleName(r.name));
    var mapped := Map(kept, (r: RoleEntry) => RoleEntry(r.name, Sort(r.squadPermissions, plain)));
    SortedMembers(mapped, (a: RoleEntry, b: RoleEntry) => order(a.name, b.name));
    var g := Groups(inputs, order, plain)[i];
    assert g in Groups(inputs, order, plain);
    assert g in mapped;
    var j :| 0 <= j < |mapped| && mapped[j] == g;
    var r := kept[j];
    assert r in kept;
    SafeHasNoColon(g.name);
    SortedMembers(r.squadPermissions, plain);
    forall k | 0 <= k < |g.squadPermissions|
      ensures Without(g.squadPermissions[k], ',')
    {
      assert g.squadPermissions[k] in r.squadPermissions;
    }
    ReadsGroupLine(g);
  }

  lemma SafeHasNoColon(name: string)
    requires SafeRoleName(name)
    ensures Without(name, ':')
  {
    hide Trim, LineBreaking;
  }

  lemma AdminsAreReadable(inputs: Inputs, order: Order, plain: Order, i: nat)
    requires var groups := Groups(inputs, order, plain);
             PlainIds(inputs) && Separable(inputs) && i < |Admins(inputs, groups, order)|
    ensures var a := Admins(inputs, Groups(inputs, order, plain), order)[i]; ReadLine(AdminLine(a)) == AdminRead(a)
  {
    hide Plain, Groups, Sort, Filter, ReadLine, AdminLine, Without, Written;
    var groups := Groups(inputs, order, plain);
    var admins := Admins(inputs, groups, order);
    var a := admins[i];
    SortedMembers(Filter(inputs.admins, (a: AdminEntry) => Named(groups, a.roleName)),
                  (a: AdminEntry, b: AdminEntry) => AdminOrder(order, a, b));
    assert a in admins;
    assert a in inputs.admins && Named(groups, a.roleName);
    var g :| 0 <= g < |groups| && groups[g].name == a.roleName;
    GroupsAreSafe(inputs, order, plain, g);
    ReadsAdminLine(a);
  }

  lemma ClanIsReadable(inputs: Inputs, order: Order, i: nat)
    requires PlainIds(inputs) && Separable(inputs) && i < |Clan(inputs, order)|
    ensures var c := Clan(inputs, order)[i]; ReadLine(ClanLine(c)) == ClanRead(c)
  {
    hide Plain, Sort, ReadLine, ClanLine, Without;
    var clan := Clan(inputs, order);
    SortedMembers(inputs.clanPriority, (a: ClanPriorityEntry, b: ClanPriorityEntry) => order(a.eosId, b.eosId));
    assert clan[i] in clan;
    assert clan[i] in inputs.clanPriority;
    ReadsClanLine(clan[i]);
  }

  /** What is read from the lines between the markers, one entry per line. */
  lemma ReadsInOrder(inputs: Inputs, order: Order, plain: Order)
    requires PlainIds(inputs) && Separable(inputs)
    ensures
      var groups := Groups(inputs, order, plain);
      var clanGroup := if EmitsClanGroup(inputs, groups) then [Group("ClanPriority", ["reserve"])] else [];
      var g := Map(groups, GroupRead) + clanGroup;
      var a := Map(Admins(inputs, groups, order), AdminRead) + Map(Clan(inputs, order), ClanRead);
      Map(Middle(inputs, order, plain), ReadLine) == g + (if g != [] && a != [] then [Other] else []) + a
  {
    hide Groups, Admins, Clan, EmitsClanGroup, ReadLine, GroupLine, AdminLine, ClanLine, ClanGroupLine, PlainIds, Separable;
    hide GroupRead, AdminRead, ClanRead;
    var groups := Groups(inputs, order, plain);
    var admins, clan := Admins(inputs, groups, order), Clan(inputs, order);
    forall i | 0 <= i < |groups|
      ensures ReadLine(GroupLine(groups[i])) == GroupRead(groups[i])
    {
      GroupsAreReadable(inputs, order, plain, i);
    }
    forall i | 0 <= i < |admins|
      ensures ReadLine(AdminLine(admins[i])) == AdminRead(admins[i])
    {
      AdminsAreReadable(inputs, order, plain, i);
    }
    forall i | 0 <= i < |clan|
      ensures ReadLine(ClanLine(clan[i])) == ClanRead(clan[i])
    {
      ClanIsReadable(inputs, order, i);
    }
    ReadsClanGroupLine();
    ReadsBlank();
    var groupLines, adminLines := GroupLines(inputs, groups), AdminLines(admins, clan);
    assert Map(groupLines, ReadLine) == Map(groups, GroupRead) + if EmitsClanGroup(inputs, groups) then [Group("ClanPriority", ["reserve"])] else [];
    assert Map(adminLines, ReadLine) == Map(admins, AdminRead) + Map(clan, ClanRead);
    var blank := if groupLines != [] && adminLines != [] then [""] else [];
    assert Map(groupLines + blank + adminLines, ReadLine) == Map(groupLines, ReadLine) + Map(blank, ReadLine) + Map(adminLines, ReadLine);
    assert Map(blank, ReadLine) == if groupLines != [] && adminLines != [] then [Other] else [];
  }

  // ----- against the inputs

  /** Everything between the marker lines. */
  function EntriesOf(body: string): seq<Entry> {
    var lines := Lines(body);
    if |lines| < 2 then [] else Map(lines[1..|lines| - 1], ReadLine)
  }

  function AdminsIn(entries: seq<Entry>): seq<Entry> { Filter(entries, (e: Entry) => e.Admin?) }

  function GroupsIn(entries: seq<Entry>): seq<Entry> { Filter(entries, (e: Entry) => e.Group?) }

  /** A group by its name and its keys, whatever their order. */
  function KeyRead(e: Entry): RoleKey { if e.Group? then RoleKey(e.name, multiset(e.keys)) else RoleKey("", multiset{}) }

  lemma {:induction false} FilterOfTwo<T(!new)>(x: seq<T>, y: seq<T>, p: T -> bool)
    ensures Filter(x + y, p) == Filter(x, p) + Filter(y, p)
  {
    if x == [] {
      assert x + y == y;
    } else {
      FilterOfTwo(x[1..], y, p);
      assert (x + y)[0] == x[0] && (x + y)[1..] == x[1..] + y;
      Associates(if p(x[0]) then [x[0]] else [], Filter(x[1..], p), Filter(y, p));
    }
  }

  lemma Associates<T>(a: seq<T>, b: seq<T>, c: seq<T>)
    ensures a + b + c == a + (b + c)
  {}

  lemma {:induction false} FilterAll<T(!new)>(x: seq<T>, p: T -> bool)
    ensures (forall i :: 0 <= i < |x| ==> p(x[i])) ==> Filter(x, p) == x
    ensures (forall i :: 0 <= i < |x| ==> !p(x[i])) ==> Filter(x, p) == []
  {
    if x != [] {
      FilterAll(x[1..], p);
      assert x == [x[0]] + x[1..];
    }
  }

  lemma Sorts(g: seq<Entry>, other: seq<Entry>, a: seq<Entry>)
    requires forall i :: 0 <= i < |g| ==> g[i].Group?
    requires forall i :: 0 <= i < |other| ==> other[i].Other?
    requires forall i :: 0 <= i < |a| ==> a[i].Admin?
    ensures AdminsIn(g + other + a) == a && GroupsIn(g + other + a) == g
  {
    hide Filter;
    var isAdmin, isGroup := (e: Entry) => e.Admin?, (e: Entry) => e.Group?;
    FilterOfTwo(g + other, a, isAdmin);
    FilterOfTwo(g, other, isAdmin);
    FilterAll(g, isAdmin);
    FilterAll(other, isAdmin);
    FilterAll(a, isAdmin);
    FilterOfTwo(g + other, a, isGroup);
    FilterOfTwo(g, other, isGroup);
    FilterAll(g, isGroup);
    FilterAll(other, isGroup);
    FilterAll(a, isGroup);
  }

  lemma WrittenNames(inputs: Inputs, order: Order, plain: Order, name: string)
    ensures Named(Groups(inputs, order, plain), name) <==> NameIsWritten(inputs, name)
  {
    hide SafeRoleName, Sort;
    var kept := Filter(inputs.roles, (r: RoleEntry) => r.squadPermissions != [] && SafeRoleName(r.name));
    var mapped := Map(kept, (r: RoleEntry) => RoleEntry(r.name, Sort(r.squadPermissions, plain)));
    SortedMembers(mapped, (a: RoleEntry, b: RoleEntry) => order(a.name, b.name));
    var groups := Groups(inputs, order, plain);
    if Named(groups, name) {
      var i :| 0 <= i < |groups| && groups[i].name == name;
      assert groups[i] in groups;
      assert groups[i] in mapped;
      var j :| 0 <= j < |mapped| && mapped[j] == groups[i];
      assert kept[j] in kept;
      assert kept[j] in inputs.roles && IsWritten(kept[j]);
    }
    if NameIsWritten(inputs, name) {
      var r :| r in inputs.roles && r.name == name && IsWritten(r);
      assert r in kept;
      var j :| 0 <= j < |kept| && kept[j] == r;
      assert mapped[j] in mapped;
      assert mapped[j] in groups;
    }
  }

  lemma {:induction false} SameFilter<T(!new)>(s: seq<T>, p: T -> bool, q: T -> bool)
    requires forall x :: x in s ==> p(x) == q(x)
    ensures Filter(s, p) == Filter(s, q)
  {
    if s != [] {
      SameFilter(s[1..], p, q);
    }
  }

  lemma AdminsReadAsWritten(inputs: Inputs, order: Order, plain: Order, holds: AdminEntry -> bool)
    requires forall a :: holds(a) <==> NameIsWritten(inputs, a.roleName)
    ensures multiset(Map(Admins(inputs, Groups(inputs, order, plain), order), AdminRead))
         == multiset(Map(Filter(inputs.admins, holds), AdminRead))
  {
    hide Groups, Sort, Filter, Named, AdminRead, NameIsWritten;
    var groups := Groups(inputs, order, plain);
    var named := (a: AdminEntry) => Named(groups, a.roleName);
    forall a | a in inputs.admins
      ensures named(a) == holds(a)
    {
      WrittenNames(inputs, order, plain, a.roleName);
    }
    SameFilter(inputs.admins, named, holds);
    MapIgnoresOrder(Admins(inputs, groups, order), Filter(inputs.admins, holds), AdminRead);
  }

  lemma GroupsReadAsWritten(inputs: Inputs, order: Order, plain: Order)
    ensures multiset(Map(Map(Groups(inputs, order, plain), GroupRead), KeyRead))
         == multiset(Map(Filter(inputs.roles, IsWritten), KeyOf))
  {
    hide SafeRoleName, Sort, Filter;
    var writes := (r: RoleEntry) => r.squadPermissions != [] && SafeRoleName(r.name);
    SameFilter(inputs.roles, writes, IsWritten);
    var kept := Filter(inputs.roles, IsWritten);
    var mapped := Map(kept, (r: RoleEntry) => RoleEntry(r.name, Sort(r.squadPermissions, plain)));
    var groups := Groups(inputs, order, plain);
    MapIgnoresOrder(groups, mapped, KeyOf);
    assert Map(Map(groups, GroupRead), KeyRead) == Map(groups, KeyOf);
    assert Map(mapped, KeyOf) == Map(kept, KeyOf);
  }

  /**
    What is read back from the segment is what was put in.  The Admin lines are exactly the admins whose
    role is written, each with its role and its flattened comment, and every clan member in the group
    ClanPriority; the Group lines are exactly the roles with permissions and a safe name, each with its
    keys, and ClanPriority with `reserve` when it is needed and no role has that name.
   */
  lemma ReadBack(inputs: Inputs, order: Order, plain: Order, holds: AdminEntry -> bool)
    requires PlainIds(inputs) && Separable(inputs)
    requires forall a :: holds(a) <==> NameIsWritten(inputs, a.roleName)
    ensures
      var entries := EntriesOf(BodyOf(Middle(inputs, order, plain)));
      && multiset(AdminsIn(entries)) == multiset(Map(Filter(inputs.admins, holds), AdminRead)) + multiset(Map(inputs.clanPriority, ClanRead))
      && multiset(Map(GroupsIn(entries), KeyRead)) == multiset(Map(Filter(inputs.roles, IsWritten), KeyOf))
           + if inputs.clanPriority != [] && !NameIsWritten(inputs, "ClanPriority") then multiset{RoleKey("ClanPriority", multiset{"reserve"})} else multiset{}
  {
    hide *;
    LinesBetween(inputs, order, plain);
    var groups := Groups(inputs, order, plain);
    var clanGroup := if EmitsClanGroup(inputs, groups) then [Group("ClanPriority", ["reserve"])] else [];
    EntriesByKind(inputs, order, plain);
    AdminsReadAsWritten(inputs, order, plain, holds);
    ClanReadAsWritten(inputs, order);
    GroupsReadAsWritten(inputs, order, plain);
    MapOfTwo(Map(groups, GroupRead), clanGroup, KeyRead);
    ClanGroupKey(clanGroup);
    NeedsClanGroup(inputs, order, plain);
  }

  lemma LinesBetween(inputs: Inputs, order: Order, plain: Order)
    requires PlainIds(inputs)
    ensures EntriesOf(BodyOf(Middle(inputs, order, plain))) == Map(Middle(inputs, order, plain), ReadLine)
  {
    SegmentKeepsItsShape(inputs, order, plain);
    hide AllGood, Managed, Middle, BodyOf, Lines, ReadLine, BeginLine, EndMarker;
    var middle := Middle(inputs, order, plain);
    assert ([BeginLine()] + middle + [EndMarker()])[1..|middle| + 1] == middle;
  }

  lemma EntriesByKind(inputs: Inputs, order: Order, plain: Order)
    requires PlainIds(inputs) && Separable(inputs)
    ensures
      var groups := Groups(inputs, order, plain);
      var clanGroup := if EmitsClanGroup(inputs, groups) then [Group("ClanPriority", ["reserve"])] else [];
      var entries := Map(Middle(inputs, order, plain), ReadLine);
      && GroupsIn(entries) == Map(groups, GroupRead) + clanGroup
      && AdminsIn(entries) == Map(Admins(inputs, groups, order), AdminRead) + Map(Clan(inputs, order), ClanRead)
  {
    hide *;
    var groups := Groups(inputs, order, plain);
    var clanGroup := if EmitsClanGroup(inputs, groups) then [Group("ClanPriority", ["reserve"])] else [];
    ReadsInOrder(inputs, order, plain);
    ReadKinds(groups, clanGroup, Admins(inputs, groups, order), Clan(inputs, order));
  }

  lemma ClanReadAsWritten(inputs: Inputs, order: Order)
    ensures multiset(Map(Clan(inputs, order), ClanRead)) == multiset(Map(inputs.clanPriority, ClanRead))
  {
    hide ClanRead, Sort;
    MapIgnoresOrder(Clan(inputs, order), inputs.clanPriority, ClanRead);
  }

  lemma NeedsClanGroup(inputs: Inputs, order: Order, plain: Order)
    ensures EmitsClanGroup(inputs, Groups(inputs, order, plain)) <==> inputs.clanPriority != [] && !NameIsWritten(inputs, "ClanPriority")
  {
    hide Groups, Named, NameIsWritten;
    WrittenNames(inputs, order, plain, "ClanPriority");
  }

  lemma ReadKinds(groups: seq<RoleEntry>, clanGroup: seq<Entry>, admins: seq<AdminEntry>, clan: seq<ClanPriorityEntry>)
    requires forall i :: 0 <= i < |clanGroup| ==> clanGroup[i].Group?
    ensures var g, a := Map(groups, GroupRead) + clanGroup, Map(admins, AdminRead) + Map(clan, ClanRead);
            var entries := g + (if g != [] && a != [] then [Other] else []) + a;
            AdminsIn(entries) == a && GroupsIn(entries) == g
  {
    hide AdminsIn, GroupsIn, Written, CommentText, Filter;
    var g, a := Map(groups, GroupRead) + clanGroup, Map(admins, AdminRead) + Map(clan, ClanRead);
    Sorts(g, if g != [] && a != [] then [Other] else [], a);
  }

  lemma ClanGroupKey(clanGroup: seq<Entry>)
    requires clanGroup == [] || clanGroup == [Group("ClanPriority", ["reserve"])]
    ensures multiset(Map(clanGroup, KeyRead)) == if clanGroup == [] then multiset{} else multiset{RoleKey("ClanPriority", multiset{"reserve"})}
  {
    if clanGroup != [] {
      assert Map(clanGroup, KeyRead) == [RoleKey("ClanPriority", multiset(["reserve"]))];
      assert multiset(["reserve"]) == multiset{"reserve"};
    }
  }

  /** And it is in order: groups by name with sorted keys, admins by role and then id, clan members by id. */
  lemma WrittenInOrder(inputs: Inputs, order: Order, plain: Order, i: nat, j: nat)
    requires TotalPreorder(order) && TotalPreorder(plain) && i < j
    ensures var groups := Groups(inputs, order, plain);
            && (j < |groups| ==> order(groups[i].name, groups[j].name))
            && (i < |groups| ==> Sorted(groups[i].squadPermissions, plain))
            && (j < |Admins(inputs, groups, order)| ==>
                  var a, b := Admins(inputs, groups, order)[i], Admins(inputs, groups, order)[j];
                  order(a.roleName, b.roleName) && (a.roleName == b.roleName ==> order(a.eosId, b.eosId)))
            && (j < |Clan(inputs, order)| ==> order(Clan(inputs, order)[i].eosId, Clan(inputs, order)[j].eosId))
  {
    hide Filter, SafeRoleName, Named, Sort;
    var le := (a: RoleEntry, b: RoleEntry) => order(a.name, b.name);
    var kept := Filter(inputs.roles, (r: RoleEntry) => r.squadPermissions != [] && SafeRoleName(r.name));
    var mapped := Map(kept, (r: RoleEntry) => RoleEntry(r.name, Sort(r.squadPermissions, plain)));
    var groups := Groups(inputs, order, plain);
    SortSorts(mapped, le);
    if i < |groups| {
      SortedMembers(mapped, le);
      assert groups[i] in groups;
      assert groups[i] in mapped;
      var k :| 0 <= k < |mapped| && mapped[k] == groups[i];
      SortSorts(kept[k].squadPermissions, plain);
    }
    LexicographicIsTotal(order);
    SortSorts(Filter(inputs.admins, (a: AdminEntry) => Named(groups, a.roleName)), (a: AdminEntry, b: AdminEntry) => AdminOrder(order, a, b));
    var byId := (a: ClanPriorityEntry, b: ClanPriorityEntry) => order(a.eosId, b.eosId);
    assert forall a, b :: byId(a, b) == order(a.eosId, b.eosId);
    SortSorts(inputs.clanPriority, byId);
  }
}
