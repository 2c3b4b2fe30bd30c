/**
  Role changes as the routes run them: a request is checked against the database with the context
  its actor was given at authentication (which the permission cache may have kept from earlier), and
  written later; any number of requests overlap.  All actors are non-Owners, acting directly or
  through an API token.
 */
module RoleChanges {

  import opened Wrappers
  import opened Roles

  datatype Holding = Holding(role: Option<RoleId>, live: bool)

  /** The body of a role edit: what it leaves out stays as it is. */
  datatype Patch = Patch(name: Option<string>, flags: map<Flag, bool>, squad: Option<set<SquadKey>>)

  datatype Request =
    | Assign(players: set<PlayerId>, newRole: Option<RoleId>)
    | Edit(role: RoleId, read: Role, patch: Patch)
    | Create(id: RoleId, row: Role)
    | Delete(role: RoleId)

  datatype State = State(
    roles: map<RoleId, Role>,
    players: map<PlayerId, Holding>,
    cache: map<PlayerId, Context>,
    checked: map<nat, Request>)

  datatype Action =
    | Load(player: PlayerId)
    | Evict(player: PlayerId)
    | Expire(player: PlayerId)
    | Check(id: nat, player: PlayerId, scopes: Option<set<PermissionKey>>, request: Request)
    | Write(id: nat)

  function RoleContext(s: State, role: RoleId): Context {
    if role in s.roles then ContextOf(role, s.roles[role]) else NO_ROLE
  }

  /** `loadUserPermissions` without the cache: an expired role grants nothing. */
  function PlayerContext(s: State, player: PlayerId): Context {
    if player in s.players && s.players[player].live && s.players[player].role.Some?
    then RoleContext(s, s.players[player].role.value)
    else NO_ROLE
  }

  // ----- the checks

  /** `PUT /roles/:id` sets every column but these. */
  predicate Editable(f: Flag) { !(f.IsOwner? || f.CanManageMedia? || f.CombatView?) }

  function Patched(role: Role, patch: Patch): Role {
    Role(if patch.name.Some? then patch.name.value else role.name,
         role.isSystemRole,
         (set f: Flag | if Editable(f) && f in patch.flags then patch.flags[f] else f in role.flags),
         if patch.squad.Some? then patch.squad.value else role.squad,
         role.explicitKeys)
  }

  /** `checkRoleAssignment` for a non-Owner. */
  predicate MayAssign(s: State, actorId: PlayerId, actor: Context, players: set<PlayerId>, newRole: Option<RoleId>) {
    && actorId !in players
    && (newRole.Some? ==> Within(RoleContext(s, newRole.value), actor))
    && (forall p | p in players && p in s.players && s.players[p].role.Some? ::
          Within(RoleContext(s, s.players[p].role.value), actor))
  }

  predicate Passes(s: State, actorId: PlayerId, actor: Context, request: Request) {
    match request
    case Assign(players, newRole) => MayAssign(s, actorId, actor, players, newRole) && (newRole.Some? ==> newRole.value in s.roles)
    case Edit(role, read, patch) =>
      && role in s.roles && read == s.roles[role]
      && !IsOwnerRole(read)
      && actor.roleId != Some(role)
      && Within(ContextOf(role, read), actor)
      && Within(ContextOf(role, Patched(read, patch)), actor)
    case Create(id, row) =>
      && id !in s.roles && !row.isSystemRole && row.explicitKeys == {}
      && Within(ContextOf(id, row), actor)
    case Delete(role) => role in s.roles && !IsOwnerRole(s.roles[role]) && Within(RoleContext(s, role), actor)
  }

  function ActorContext(s: State, player: PlayerId, scopes: Option<set<PermissionKey>>): Context
    requires player in s.cache
  {
    if scopes.Some? then Narrow(s.cache[player], scopes.value) else s.cache[player]
  }

  predicate Enabled(s: State, a: Action) {
    match a
    case Check(id, player, scopes, request) =>
      && id !in s.checked && player in s.cache
      && IsOwner !in ActorContext(s, player, scopes).flags
      && Passes(s, player, ActorContext(s, player, scopes), request)
    case Write(id) => id in s.checked && Applicable(s, s.checked[id])
    case _ => true
  }

  /** The write goes through: a role id is unique, and a player's role refers to a role. */
  predicate Applicable(s: State, r: Request) {
    match r
    case Assign(_, newRole) => newRole.Some? ==> newRole.value in s.roles
    case Create(id, _) => id !in s.roles
    case _ => true
  }

  function RolesAfter(roles: map<RoleId, Role>, r: Request): map<RoleId, Role> {
    match r
    case Assign(_, _) => roles
    case Edit(role, _, patch) => if role in roles then roles[role := Patched(roles[role], patch)] else roles
    case Create(id, row) => roles[id := row]
    case Delete(role) => roles - {role}
  }

  function PlayersAfter(players: map<PlayerId, Holding>, r: Request): map<PlayerId, Holding> {
    match r
    case Assign(moved, newRole) => map p | p in players :: if p in moved then Holding(newRole, true) else players[p]
    case Delete(role) => map p | p in players :: if players[p].role == Some(role) then Holding(None, true) else players[p]
    case _ => players
  }

  /** A written assignment drops the cached contexts of the players it moved. */
  function Written(s: State, r: Request): State {
    s.(roles := RolesAfter(s.roles, r), players := PlayersAfter(s.players, r),
       cache := if r.Assign? then s.cache - r.players else s.cache)
  }

  function Step(s: State, a: Action): State {
    match a
    case Load(player) => s.(cache := s.cache[player := PlayerContext(s, player)])
    case Evict(player) => s.(cache := s.cache - {player})
    case Expire(player) =>
      if player in s.players then s.(players := s.players[player := s.players[player].(live := false)]) else s
    case Check(id, _, _, request) => s.(checked := s.checked[id := request])
    case Write(id) =>
      if id !in s.checked then s
      else Written(s.(checked := s.checked - {id}), s.checked[id])
  }

  /** No other edit of the role was written since this one read it. */
  predicate Undisturbed(s: State, a: Action) {
    a.Write? && a.id in s.checked && s.checked[a.id].Edit? && s.checked[a.id].role in s.roles ==>
      s.roles[s.checked[a.id].role] == s.checked[a.id].read
  }

  ghost predicate Runs(s: State, actions: seq<Action>, t: State)
    decreases |actions|
  {
    if actions == [] then s == t
    else Enabled(s, actions[0]) && Runs(Step(s, actions[0]), actions[1..], t)
  }

  ghost predicate EditsUndisturbed(s: State, actions: seq<Action>)
    decreases |actions|
  {
    actions != [] ==> Undisturbed(s, actions[0]) && EditsUndisturbed(Step(s, actions[0]), actions[1..])
  }

  predicate AtRest(s: State) { s.cache == map[] && s.checked == map[] }

  // ----- nobody gains more than somebody had

  ghost predicate Bounded(s0: State, c: Context) {
    exists q :: q in s0.players && Within(c, PlayerContext(s0, q))
  }

  lemma BoundedDown(s0: State, c: Context, d: Context)
    requires Bounded(s0, d) && Within(c, d)
    ensures Bounded(s0, c)
  {
    var q :| q in s0.players && Within(d, PlayerContext(s0, q));
    Transitive(c, d, PlayerContext(s0, q));
  }

  ghost predicate RequestBounded(s0: State, s: State, r: Request) {
    match r
    case Assign(_, newRole) => newRole.Some? && newRole.value in s.roles ==> Bounded(s0, RoleContext(s, newRole.value))
    case Edit(role, read, patch) => Bounded(s0, ContextOf(role, Patched(read, patch)))
    case Create(id, row) => Bounded(s0, ContextOf(id, row))
    case Delete(_) => true
  }

  ghost predicate PlayersBounded(s0: State, s: State) { forall p :: p in s.players ==> Bounded(s0, PlayerContext(s, p)) }

  ghost predicate CacheBounded(s0: State, s: State) { forall p :: p in s.cache ==> Bounded(s0, s.cache[p]) }

  ghost predicate RequestsBounded(s0: State, s: State) { forall i :: i in s.checked ==> RequestBounded(s0, s, s.checked[i]) }

  ghost predicate Inv(s0: State, s: State) {
    Bounded(s0, NO_ROLE) && PlayersBounded(s0, s) && CacheBounded(s0, s) && RequestsBounded(s0, s)
  }

  /** Whenever the row of a role changes, the new row is bounded. */
  ghost predicate RolesMoveWithinBounds(s0: State, s: State, t: State) {
    forall r :: r in t.roles && !(r in s.roles && s.roles[r] == t.roles[r]) ==> Bounded(s0, RoleContext(t, r))
  }

  lemma CheckedIsBounded(s0: State, s: State, a: Action)
    requires Inv(s0, s) && a.Check? && Enabled(s, a)
    ensures RequestBounded(s0, s, a.request)
  {
    hide ContextOf, Patched, Within, Narrow;
    var actor := ActorContext(s, a.player, a.scopes);
    BoundedDown(s0, actor, s.cache[a.player]) by {
      if a.scopes.None? { Reflexive(actor); }
    }
    match a.request
    case Assign(_, newRole) => if newRole.Some? { BoundedDown(s0, RoleContext(s, newRole.value), actor); }
    case Edit(role, read, patch) => BoundedDown(s0, ContextOf(role, Patched(read, patch)), actor);
    case Create(id, row) => BoundedDown(s0, ContextOf(id, row), actor);
    case Delete(_) =>
  }

  lemma Reflexive(c: Context)
    ensures Within(c, c)
  {}

  lemma RolesStayBounded(s0: State, s: State, a: Action)
    requires Inv(s0, s) && Enabled(s, a) && Undisturbed(s, a)
    ensures RolesMoveWithinBounds(s0, s, Step(s, a))
  {
    hide ContextOf, Patched, Within, Narrow, Bounded;
    if a.Write? {
      assert RequestBounded(s0, s, s.checked[a.id]);
    }
  }

  lemma RequestsStayBounded(s0: State, s: State, a: Action)
    requires Inv(s0, s) && Enabled(s, a) && Undisturbed(s, a)
    ensures RequestsBounded(s0, Step(s, a))
  {
    RolesStayBounded(s0, s, a);
    if a.Check? {
      CheckedIsBounded(s0, s, a);
    }
    hide ContextOf, Patched, Within, Narrow, Bounded, Passes;
    var t := Step(s, a);
    forall i | i in t.checked
      ensures RequestBounded(s0, t, t.checked[i])
    {
      if i in s.checked && t.checked[i] == s.checked[i] {
        assert RequestBounded(s0, s, s.checked[i]);
      }
    }
  }

  /** A player's holding changes only to nothing, or to what a written assignment gives. */
  lemma HoldingAfter(s: State, a: Action, p: PlayerId)
    requires p in Step(s, a).players
    ensures p in s.players
    ensures var h := Step(s, a).players[p];
            || h == s.players[p] || !h.live || h.role.None?
            || (a.Write? && a.id in s.checked && s.checked[a.id].Assign? && h.role == s.checked[a.id].newRole)
  {
    hide RolesAfter, PlayerContext;
  }

  lemma PlayersStayBounded(s0: State, s: State, a: Action)
    requires Inv(s0, s) && Enabled(s, a) && Undisturbed(s, a)
    ensures PlayersBounded(s0, Step(s, a))
  {
    RolesStayBounded(s0, s, a);
    hide ContextOf, Bounded, Enabled, Step, Undisturbed;
    var t := Step(s, a);
    forall p | p in t.players
      ensures Bounded(s0, PlayerContext(t, p))
    {
      HoldingAfter(s, a, p);
      assert Bounded(s0, PlayerContext(s, p));
      var h := t.players[p];
      if h.live && h.role.Some? && h.role.value in t.roles {
        var r := h.role.value;
        if r in s.roles && s.roles[r] == t.roles[r] && h != s.players[p] {
          assert RequestBounded(s0, s, s.checked[a.id]);
        }
      }
    }
  }

  lemma CacheStaysBounded(s0: State, s: State, a: Action)
    requires PlayersBounded(s0, s) && CacheBounded(s0, s) && Bounded(s0, NO_ROLE)
    ensures CacheBounded(s0, Step(s, a))
  {
    hide ContextOf, Patched, Within, Narrow, Bounded, Passes, RoleContext;
    if a.Load? {
      assert a.player in s.players ==> Bounded(s0, PlayerContext(s, a.player));
    }
  }

  lemma {:induction false} InvAlong(s0: State, s: State, actions: seq<Action>, t: State)
    requires Inv(s0, s) && Runs(s, actions, t) && EditsUndisturbed(s, actions)
    ensures Inv(s0, t)
    decreases |actions|
  {
    hide Enabled, Step, Bounded, Undisturbed, PlayerContext;
    if actions != [] {
      RequestsStayBounded(s0, s, actions[0]);
      PlayersStayBounded(s0, s, actions[0]);
      CacheStaysBounded(s0, s, actions[0]);
      InvAlong(s0, Step(s, actions[0]), actions[1..], t);
    }
  }

  lemma BoundedAtStart(s: State, q: PlayerId)
    requires q in s.players
    ensures Bounded(s, PlayerContext(s, q)) && Bounded(s, NO_ROLE)
  {
    hide PlayerContext;
    Reflexive(PlayerContext(s, q));
    assert Within(NO_ROLE, PlayerContext(s, q));
  }

  lemma InvAtStart(s: State)
    requires AtRest(s) && s.players != map[]
    ensures Inv(s, s)
  {
    hide Bounded, PlayerContext, RequestBounded;
    var p :| p in s.players;
    BoundedAtStart(s, p);
    forall q | q in s.players
      ensures Bounded(s, PlayerContext(s, q))
    {
      BoundedAtStart(s, q);
    }
  }

  lemma {:induction false} PlayersAreFixed(s: State, actions: seq<Action>, t: State)
    requires Runs(s, actions, t)
    ensures t.players.Keys == s.players.Keys
    decreases |actions|
  {
    hide Enabled, ContextOf, Patched;
    if actions != [] {
      assert Step(s, actions[0]).players.Keys == s.players.Keys;
      PlayersAreFixed(Step(s, actions[0]), actions[1..], t);
    }
  }

  /**
    However guarded requests overlap, as long as no edit is written over another edit of the role,
    every player's context stays within one that some player had at the start.
   */
  lemma NobodyExceedsTheStart(s0: State, actions: seq<Action>, t: State, p: PlayerId)
    requires AtRest(s0) && Runs(s0, actions, t) && EditsUndisturbed(s0, actions) && p in t.players
    ensures exists q :: q in s0.players && Within(PlayerContext(t, p), PlayerContext(s0, q))
  {
    hide PlayerContext, Within, Step, Enabled, Undisturbed;
    PlayersAreFixed(s0, actions, t);
    assert p in s0.players;
    InvAtStart(s0);
    InvAlong(s0, s0, actions, t);
    assert Bounded(s0, PlayerContext(t, p));
  }

  const ISSUES := Role("a", false, {PanelAccess, CanEditRoles, CanManageIssues}, {}, {})
  const CLANS := Role("b", false, {PanelAccess, CanEditRoles, CanManageClans}, {}, {})
  const PLAIN := Role("c", false, {}, {}, {})
  const ADD_ISSUES := Patch(None, map[CanManageIssues := true], None)
  const ADD_CLANS := Patch(None, map[CanManageClans := true], None)

  function TwoEditors(): State {
    State(map[10 := ISSUES, 11 := CLANS, 12 := PLAIN],
          map[0 := Holding(Some(10), true), 1 := Holding(Some(11), true), 2 := Holding(Some(12), true)],
          map[], map[])
  }

  function BothLoaded(): State {
    TwoEditors().(cache := map[0 := ContextOf(10, ISSUES), 1 := ContextOf(11, CLANS)])
  }

  const FIRST := Edit(12, PLAIN, ADD_ISSUES)
  const SECOND := Edit(12, PLAIN, ADD_CLANS)

  const OVERLAPPING := [Load(0), Load(1), Check(0, 0, None, FIRST), Check(1, 1, None, SECOND), Write(0), Write(1)]

  function Overlapped(): State {
    var s3 := Step(BothLoaded(), Check(0, 0, None, FIRST));
    Step(Step(Step(s3, Check(1, 1, None, SECOND)), Write(0)), Write(1))
  }

  /**
    The condition is needed: two edits of one role, each within its editor's rights, checked before
    either is written, leave the role with a pair of rights nobody held.
   */
  lemma OverlappingEditsWiden() returns (s0: State, actions: seq<Action>, t: State)
    ensures AtRest(s0) && Runs(s0, actions, t) && 2 in t.players
    ensures !exists q :: q in s0.players && Within(PlayerContext(t, 2), PlayerContext(s0, q))
  {
    s0, actions, t := TwoEditors(), OVERLAPPING, Overlapped();
    TheyRun();
    BothWritten();
    NobodyHeldBoth();
  }

  lemma TheyRun()
    ensures Runs(TwoEditors(), OVERLAPPING, Overlapped())
  {
    FirstPasses();
    SecondPasses();
    BothLoad();
    hide ContextOf, Passes, PlayerContext;
    var s0 := TwoEditors();
    var s1 := Step(s0, Load(0));
    var s3 := Step(BothLoaded(), Check(0, 0, None, FIRST));
    var s4 := Step(s3, Check(1, 1, None, SECOND));
    SixSteps(s0, OVERLAPPING, s1, BothLoaded(), s3, s4, Step(s4, Write(0)), Overlapped());
  }

  lemma BothLoad()
    ensures Step(Step(TwoEditors(), Load(0)), Load(1)) == BothLoaded()
  {
    hide ContextOf;
  }

  lemma FirstPasses()
    ensures Passes(BothLoaded(), 0, ContextOf(10, ISSUES), FIRST)
    ensures IsOwner !in ContextOf(10, ISSUES).flags
  {
    SmallContext(12, PLAIN, {});
    SmallContext(12, Patched(PLAIN, ADD_ISSUES), {CanManageIssues});
    EditorContext(10, ISSUES, CanManageIssues, CanManageClans);
    hide ContextOf, Patched, PlayerContext;
    assert BothLoaded().roles == TwoEditors().roles;
    hide Step, BothLoaded;
  }

  lemma SecondPasses()
    ensures Passes(Step(BothLoaded(), Check(0, 0, None, FIRST)), 1, ContextOf(11, CLANS), SECOND)
    ensures IsOwner !in ContextOf(11, CLANS).flags
  {
    SmallContext(12, PLAIN, {});
    SmallContext(12, Patched(PLAIN, ADD_CLANS), {CanManageClans});
    EditorContext(11, CLANS, CanManageClans, CanManageIssues);
    hide ContextOf, Patched, RolesAfter, PlayersAfter, PlayerContext;
    assert Step(BothLoaded(), Check(0, 0, None, FIRST)).roles == TwoEditors().roles;
    hide Step, BothLoaded;
  }

  lemma BothWritten()
    ensures 2 in Overlapped().players
    ensures PlayerContext(Overlapped(), 2) == Context({CanManageIssues, CanManageClans}, {}, {}, Some(12))
  {
    SmallContext(12, Patched(Patched(PLAIN, ADD_ISSUES), ADD_CLANS), {CanManageIssues, CanManageClans});
    hide ContextOf, Patched;
  }

  lemma NobodyHeldBoth()
    ensures forall q :: q in TwoEditors().players ==>
              !Within(Context({CanManageIssues, CanManageClans}, {}, {}, Some(12)), PlayerContext(TwoEditors(), q))
  {
    EditorContext(10, ISSUES, CanManageIssues, CanManageClans);
    EditorContext(11, CLANS, CanManageClans, CanManageIssues);
    SmallContext(12, PLAIN, {});
    EditorsHold();
    hide ContextOf, PlayerContext, TwoEditors;
  }

  lemma EditorsHold()
    ensures forall q :: q in TwoEditors().players ==> q == 0 || q == 1 || q == 2
    ensures PlayerContext(TwoEditors(), 0) == ContextOf(10, ISSUES) && PlayerContext(TwoEditors(), 1) == ContextOf(11, CLANS)
    ensures PlayerContext(TwoEditors(), 2) == ContextOf(12, PLAIN)
  {
    hide ContextOf;
  }

  lemma SmallContext(id: RoleId, role: Role, flags: set<Flag>)
    requires role.flags == flags <= {CanManageIssues, CanManageClans} && !role.isSystemRole && role.explicitKeys == {} && role.squad == {}
    ensures ContextOf(id, role) == Context(flags, {}, {}, Some(id))
  {
    hide Catalogue, PassesFlagGates;
    assert ContextOf(id, role).flags == flags;
    assert ContextOf(id, role).permissions == {};
  }

  lemma EditorContext(id: RoleId, role: Role, has: Flag, lacks: Flag)
    requires role.flags == {PanelAccess, CanEditRoles, has} && !role.isSystemRole && role.squad == {}
    requires has in {CanManageIssues, CanManageClans} && lacks in {CanManageIssues, CanManageClans} && has != lacks
    ensures has in ContextOf(id, role).flags && lacks !in ContextOf(id, role).flags && IsOwner !in ContextOf(id, role).flags
  {
    hide Catalogue, PassesFlagGates;
  }

  lemma SixSteps(s0: State, actions: seq<Action>, s1: State, s2: State, s3: State, s4: State, s5: State, t: State)
    requires |actions| == 6
    requires Enabled(s0, actions[0]) && s1 == Step(s0, actions[0])
    requires Enabled(s1, actions[1]) && s2 == Step(s1, actions[1])
    requires Enabled(s2, actions[2]) && s3 == Step(s2, actions[2])
    requires Enabled(s3, actions[3]) && s4 == Step(s3, actions[3])
    requires Enabled(s4, actions[4]) && s5 == Step(s4, actions[4])
    requires Enabled(s5, actions[5]) && t == Step(s5, actions[5])
    ensures Runs(s0, actions, t)
  {
    hide Enabled, Step;
    assert actions[1..][1..] == actions[2..] && actions[2..][1..] == actions[3..];
    assert actions[3..][1..] == actions[4..] && actions[4..][1..] == actions[5..] && actions[5..][1..] == [];
    assert Runs(t, actions[5..][1..], t);
    assert Runs(s5, actions[5..], t);
    assert Runs(s4, actions[4..], t);
    assert Runs(s3, actions[3..], t);
    assert Runs(s2, actions[2..], t);
    assert Runs(s1, actions[1..], t);
  }

  // ----- no new Owner, no deposed one

  predicate OwnerRole(s: State, r: RoleId) { r in s.roles && IsOwnerRole(s.roles[r]) }

  predicate HoldsOwner(s: State, p: PlayerId) {
    p in s.players && s.players[p].role.Some? && OwnerRole(s, s.players[p].role.value)
  }

  ghost predicate OwnersFixed(s0: State, s: State) {
    && (forall p: PlayerId :: HoldsOwner(s, p) <==> HoldsOwner(s0, p))
    && (forall p: PlayerId :: HoldsOwner(s, p) && s.players[p].live ==> p in s0.players && s0.players[p].live)
  }

  ghost predicate SparesOwners(s0: State, s: State, r: Request) {
    match r
    case Assign(players, newRole) => (newRole.Some? ==> !OwnerRole(s, newRole.value)) && forall p :: p in players ==> !HoldsOwner(s0, p)
    case Edit(role, _, patch) => !OwnerRole(s, role) && (patch.name == Some("Owner") && role in s.roles ==> !s.roles[role].isSystemRole)
    case Create(_, row) => !row.isSystemRole
    case Delete(role) => !OwnerRole(s, role)
  }

  ghost predicate RequestsSpareOwners(s0: State, s: State) { forall i :: i in s.checked ==> SparesOwners(s0, s, s.checked[i]) }

  lemma OnlyOwnersHoldOwner(id: RoleId, role: Role)
    ensures IsOwner in ContextOf(id, role).flags <==> IsOwnerRole(role)
  {}

  lemma CheckedSparesOwners(s0: State, s: State, a: Action)
    requires OwnersFixed(s0, s) && a.Check? && Enabled(s, a)
    ensures SparesOwners(s0, s, a.request)
  {
    hide Narrow, ContextOf;
    forall r, role
      ensures IsOwner in ContextOf(r, role).flags <==> IsOwnerRole(role)
    {
      OnlyOwnersHoldOwner(r, role);
    }
  }

  /** A request that spares Owners neither makes nor unmakes an Owner role, and makes no system role. */
  lemma RolesGainNothing(s0: State, s: State, r: Request)
    requires SparesOwners(s0, s, r) && Applicable(s, r)
    ensures
      var after := RolesAfter(s.roles, r);
      && (forall id :: id in after && IsOwnerRole(after[id]) <==> OwnerRole(s, id))
      && (forall id :: id in after && after[id].isSystemRole ==> id in s.roles && s.roles[id].isSystemRole)
  {
    hide HoldsOwner;
  }

  lemma OwnerRolesAfter(s0: State, s: State, a: Action)
    requires RequestsSpareOwners(s0, s) && Enabled(s, a)
    ensures forall r :: OwnerRole(Step(s, a), r) <==> OwnerRole(s, r)
    ensures forall r :: r in Step(s, a).roles && Step(s, a).roles[r].isSystemRole ==> r in s.roles && s.roles[r].isSystemRole
  {
    hide Passes, ActorContext, ContextOf, HoldsOwner, RolesAfter, PlayersAfter, IsOwnerRole;
    if a.Write? {
      assert SparesOwners(s0, s, s.checked[a.id]);
      RolesGainNothing(s0, s, s.checked[a.id]);
    }
  }

  lemma CheckedAfter(s: State, a: Action, i: nat)
    requires i in Step(s, a).checked
    ensures
      || (a.Check? && Step(s, a).checked[i] == a.request)
      || (i in s.checked && Step(s, a).checked[i] == s.checked[i])
  {
    hide RolesAfter, PlayersAfter, PlayerContext;
  }

  lemma RequestsStillSpareOwners(s0: State, s: State, a: Action)
    requires OwnersFixed(s0, s) && RequestsSpareOwners(s0, s) && Enabled(s, a)
    ensures RequestsSpareOwners(s0, Step(s, a))
  {
    if a.Check? {
      CheckedSparesOwners(s0, s, a);
    }
    OwnerRolesAfter(s0, s, a);
    hide Step, Enabled, HoldsOwner, OwnerRole;
    var t := Step(s, a);
    forall i | i in t.checked
      ensures SparesOwners(s0, t, t.checked[i])
    {
      CheckedAfter(s, a, i);
      var r := t.checked[i];
      assert SparesOwners(s0, s, r);
    }
  }

  lemma OwnersStayFixed(s0: State, s: State, a: Action)
    requires OwnersFixed(s0, s) && RequestsSpareOwners(s0, s) && Enabled(s, a)
    ensures OwnersFixed(s0, Step(s, a))
  {
    OwnerRolesAfter(s0, s, a);
    hide Passes, ActorContext, ContextOf, RolesAfter, OwnerRole, IsOwnerRole;
    if a.Write? {
      assert SparesOwners(s0, s, s.checked[a.id]);
    }
    var t := Step(s, a);
    assert forall p: PlayerId :: HoldsOwner(t, p) <==> HoldsOwner(s, p);
  }

  lemma {:induction false} OwnersAlong(s0: State, s: State, actions: seq<Action>, t: State)
    requires Runs(s, actions, t)
    requires OwnersFixed(s0, s) && RequestsSpareOwners(s0, s)
    ensures OwnersFixed(s0, t)
    decreases |actions|
  {
    hide Step, Enabled, OwnersFixed, RequestsSpareOwners;
    if actions != [] {
      RequestsStillSpareOwners(s0, s, actions[0]);
      OwnersStayFixed(s0, s, actions[0]);
      OwnersAlong(s0, Step(s, actions[0]), actions[1..], t);
    }
  }

  /**
    In every run, overlapping edits included: the same players hold the Owner role at the end as at
    the start, and whoever acts as Owner at the end did at the start.
   */
  lemma OwnersNeverChange(s0: State, actions: seq<Action>, t: State, p: PlayerId)
    requires AtRest(s0) && Runs(s0, actions, t)
    ensures HoldsOwner(t, p) <==> HoldsOwner(s0, p)
    ensures IsOwner in PlayerContext(t, p).flags ==> IsOwner in PlayerContext(s0, p).flags
  {
    OwnersAlong(s0, s0, actions, t);
    hide ContextOf, Step, Enabled;
    forall r, role
      ensures IsOwner in ContextOf(r, role).flags <==> IsOwnerRole(role)
    {
      OnlyOwnersHoldOwner(r, role);
    }
  }

  // ----- the check as the code runs it

  // ----- what a written request does

  /** An assignment gives the players it names the role, and no others; what was cached of them is dropped. */
  lemma AssignmentTakesEffect(s: State, id: nat, p: PlayerId)
    requires Enabled(s, Write(id)) && s.checked[id].Assign? && p in s.players
    ensures var t, r := Step(s, Write(id)), s.checked[id];
            && t.roles == s.roles && t.checked == s.checked - {id} && t.players.Keys == s.players.Keys
            && (p in r.players ==> t.players[p] == Holding(r.newRole, true) && p !in t.cache)
            && (p in r.players ==> PlayerContext(t, p) == if r.newRole.Some? then ContextOf(r.newRole.value, s.roles[r.newRole.value]) else NO_ROLE)
            && (p !in r.players ==> t.players[p] == s.players[p] && (p in t.cache <==> p in s.cache) && (p in s.cache ==> t.cache[p] == s.cache[p]))
  {
    hide ContextOf;
  }

  /** An edit sets exactly the columns it names, of its role only; three flags cannot be set this way. */
  lemma EditTakesEffect(s: State, id: nat, flag: Flag)
    requires Enabled(s, Write(id)) && s.checked[id].Edit? && s.checked[id].role in s.roles
    ensures var t, r := Step(s, Write(id)), s.checked[id];
            && t.players == s.players && t.cache == s.cache && t.checked == s.checked - {id}
            && t.roles.Keys == s.roles.Keys && t.roles - {r.role} == s.roles - {r.role}
            && var before, after := s.roles[r.role], t.roles[r.role];
               && after.name == (if r.patch.name.Some? then r.patch.name.value else before.name)
               && after.squad == (if r.patch.squad.Some? then r.patch.squad.value else before.squad)
               && after.isSystemRole == before.isSystemRole && after.explicitKeys == before.explicitKeys
               && (flag in after.flags <==>
                     if flag in r.patch.flags && flag !in {IsOwner, CanManageMedia, CombatView} then r.patch.flags[flag]
                     else flag in before.flags)
  {}

  /** A created role is there as asked for; a deleted one is gone, and its holders have no role. */
  lemma CreationAndDeletionTakeEffect(s: State, id: nat, p: PlayerId)
    requires Enabled(s, Write(id)) && p in s.players
    ensures var t, r := Step(s, Write(id)), s.checked[id];
            && (r.Create? ==> t.roles == s.roles[r.id := r.row] && t.players == s.players && t.cache == s.cache)
            && (r.Delete? ==> t.roles == s.roles - {r.role} && t.cache == s.cache && t.players.Keys == s.players.Keys)
            && (r.Delete? ==> t.players[p] == if s.players[p].role == Some(r.role) then Holding(None, true) else s.players[p])
            && (r.Delete? && s.players[p].role == Some(r.role) ==> PlayerContext(t, p) == NO_ROLE)
  {
    hide ContextOf;
  }

  /** Nothing but a write changes roles; expiry takes a player's rights, and loading reads them into the cache. */
  lemma OtherStepsExactly(s: State, a: Action, p: PlayerId)
    requires Enabled(s, a) && !a.Write?
    ensures var t := Step(s, a);
            && t.roles == s.roles && t.players.Keys == s.players.Keys
            && t.checked == (if a.Check? then s.checked[a.id := a.request] else s.checked)
            && (p in s.players ==> t.players[p] == if a.Expire? && a.player == p then Holding(s.players[p].role, false) else s.players[p])
            && (a.Expire? ==> PlayerContext(t, a.player) == NO_ROLE)
            && (p in t.cache <==> if a.Load? && a.player == p then true else p in s.cache && !(a.Evict? && a.player == p))
            && (p in t.cache ==> t.cache[p] == if a.Load? && a.player == p then PlayerContext(s, p) else s.cache[p])
  {
    hide ContextOf, Passes;
  }

  /** Who has which rights: those of the role, while it exists and the assignment has not expired. */
  lemma RightsExactly(s: State, p: PlayerId)
    ensures PlayerContext(s, p) ==
              if p in s.players && s.players[p].live && s.players[p].role.Some? && s.players[p].role.value in s.roles
              then ContextOf(s.players[p].role.value, s.roles[s.players[p].role.value])
              else NO_ROLE
  {
    hide ContextOf;
  }

  /** No grant of the role is missing from the actor's context. */
  ghost predicate NothingBeyond(actor: Context, role: Context) { forall g :: !Lacks(actor, role, g) }

  lemma NothingBeyondIsWithin(actor: Context, id: RoleId, role: Role)
    ensures NothingBeyond(actor, ContextOf(id, role)) <==> Within(ContextOf(id, role), actor)
  {
    hide Catalogue, Grants;
    var c := ContextOf(id, role);
    if NothingBeyond(actor, c) {
      assert forall f :: f in c.flags ==> !Lacks(actor, c, FlagGrant(f));
      assert forall k :: k in c.permissions ==> !Lacks(actor, c, KeyGrant(k));
      assert forall k :: k in c.squad ==> !Lacks(actor, c, SquadGrant(k));
    }
  }

  /** Which edits, creations and deletions pass: no more and no fewer than the routes let through. */
  lemma PassesExactly(s: State, actorId: PlayerId, actor: Context, request: Request)
    ensures request.Edit? && request.role in s.roles && request.read == s.roles[request.role] ==>
              (Passes(s, actorId, actor, request) <==>
                 && !(request.read.name == "Owner" && request.read.isSystemRole) && actor.roleId != Some(request.role)
                 && NothingBeyond(actor, ContextOf(request.role, request.read))
                 && NothingBeyond(actor, ContextOf(request.role, Patched(request.read, request.patch))))
    ensures request.Create? && request.id !in s.roles && !request.row.isSystemRole && request.row.explicitKeys == {} ==>
              (Passes(s, actorId, actor, request) <==> NothingBeyond(actor, ContextOf(request.id, request.row)))
    ensures request.Delete? && request.role in s.roles ==>
              (Passes(s, actorId, actor, request) <==>
                 !(s.roles[request.role].name == "Owner" && s.roles[request.role].isSystemRole)
                 && NothingBeyond(actor, ContextOf(request.role, s.roles[request.role])))
  {
    hide ContextOf, Patched, Within, NothingBeyond;
    match request
    case Assign(_, _) =>
    case Edit(role, read, patch) =>
      NothingBeyondIsWithin(actor, role, read);
      NothingBeyondIsWithin(actor, role, Patched(read, patch));
    case Create(id, row) => NothingBeyondIsWithin(actor, id, row);
    case Delete(role) =>
      if role in s.roles {
        NothingBeyondIsWithin(actor, role, s.roles[role]);
      }
  }

  datatype Refusal = CannotChangeOwnRole | RoleExceedsActor(missing: seq<Grant>) | TargetOutranksActor(missing: seq<Grant>)

  ghost predicate ListsMissing(missing: seq<Grant>, actor: Context, role: Context) {
    missing != [] && forall g :: g in missing <==> Lacks(actor, role, g)
  }

  ghost predicate Outranks(s: State, p: PlayerId, actor: Context, missing: seq<Grant>) {
    p in s.players && s.players[p].role.Some? && ListsMissing(missing, actor, RoleContext(s, s.players[p].role.value))
  }

  /** The refusal names the first thing that is wrong, and lists exactly the grants the actor lacks. */
  ghost predicate Justified(s: State, actorId: PlayerId, actor: Context, players: seq<PlayerId>, newRole: Option<RoleId>, refusal: Refusal) {
    match refusal
    case CannotChangeOwnRole => actorId in players
    case RoleExceedsActor(missing) => actorId !in players && newRole.Some? && ListsMissing(missing, actor, RoleContext(s, newRole.value))
    case TargetOutranksActor(missing) =>
      && actorId !in players && (newRole.Some? ==> Within(RoleContext(s, newRole.value), actor))
      && exists p :: p in players && Outranks(s, p, actor, missing)
  }

  /**
    `checkRoleAssignment`: no refusal exactly when the change is allowed; an absent actor is refused,
    an Owner never is.
   */
  method CheckRoleAssignment(s: State, actorId: PlayerId, actor: Option<Context>, players: seq<PlayerId>, newRole: Option<RoleId>)
    returns (refusal: Option<Refusal>)
    ensures actor.None? ==> refusal.Some?
    ensures actor.Some? && IsOwner in actor.value.flags ==> refusal.None?
    ensures actor.Some? && IsOwner !in actor.value.flags ==>
              (refusal.None? <==> MayAssign(s, actorId, actor.value, (set p | p in players), newRole))
    ensures actor.Some? && refusal.Some? ==> Justified(s, actorId, actor.value, players, newRole, refusal.value)
  {
    hide ContextOf, Within;
    if actor.None? {
      return Some(RoleExceedsActor([]));
    }
    var context := actor.value;
    if IsOwner in context.flags {
      return None;
    }
    if actorId in players {
      return Some(CannotChangeOwnRole);
    }
    if newRole.Some? && newRole.value in s.roles {
      ContextIsProper(newRole.value, s.roles[newRole.value]);
      var missing := GrantsBeyond(context, RoleContext(s, newRole.value));
      if missing != [] {
        return Some(RoleExceedsActor(missing));
      }
    }
    NothingWithin(context);
    for i := 0 to |players|
      invariant forall j | 0 <= j < i && players[j] in s.players && s.players[players[j]].role.Some? ::
                  Within(RoleContext(s, s.players[players[j]].role.value), context)
    {
      if players[i] in s.players && s.players[players[i]].role.Some? {
        var role := s.players[players[i]].role.value;
        if role in s.roles && Some(role) != newRole {
          ContextIsProper(role, s.roles[role]);
          var missing := GrantsBeyond(context, RoleContext(s, role));
          if missing != [] {
            assert players[i] in players && Outranks(s, players[i], context, missing);
            return Some(TargetOutranksActor(missing));
          }
        }
      }
    }
    refusal := None;
  }

  lemma ContextIsProper(id: RoleId, role: Role)
    ensures Proper(ContextOf(id, role))
  {}

  lemma NothingWithin(c: Context)
    ensures Within(NO_ROLE, c)
  {}
}
