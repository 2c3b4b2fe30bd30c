/**
  Role permissions and the role hierarchy (apps/api/src/lib/rbac.ts, role-hierarchy.ts and the
  guards of apps/api/src/routes/roles.ts).  A record of boolean columns is modelled as the set of
  the columns that are true.
 */
module Roles {

  import opened Wrappers

  type PlayerId = nat
  type RoleId = nat

  /** The role columns and, besides, the context's `isOwner`. */
  datatype Flag =
    | IsOwner | PanelAccess | CanViewIps | CanAssignRoles | CanEditRoles | CanManageIssues | CanManageBanSources
    | CanManageIntegrations | CanManageClans | CanManageEconomy | CanManageMedia | CanHandleReports | CombatView
    | CanManageInfrastructure

  /** The catalogue keys that need a flag, and the plain ones. */
  datatype PermissionKey =
    | UserManageRoles
    | RoleCreate | RoleEdit | RoleDelete
    | TriggerEdit | MessageTemplateManage | IntegrationManage | PlayerViewIps | PlayerManageAltDetection
    | ModKick | ModWarn | ModBanTemp | ModBanPerm | ModUnban
    | HostManage | ServerInstall | ServerDelete | ServerForceStop | ServerUpdate
    | ConfigEdit | ConfigRollback | AdminGroupEdit | ApiTokenCreate | BackupRestore
    | Plain(index: nat)

  datatype SquadKey = Kick | Ban | OtherSquad(index: nat)

  const PLAIN_KEYS := 33
  const OTHER_SQUAD_KEYS := 19

  predicate RoleEditing(k: PermissionKey) { k.RoleCreate? || k.RoleEdit? || k.RoleDelete? }

  predicate Kicking(k: PermissionKey) { k.ModKick? || k.ModWarn? }

  predicate Banning(k: PermissionKey) { k.ModBanTemp? || k.ModBanPerm? || k.ModUnban? }

  predicate Infrastructure(k: PermissionKey) {
    || k.HostManage? || k.ServerInstall? || k.ServerDelete? || k.ServerForceStop? || k.ServerUpdate?
    || k.ConfigEdit? || k.ConfigRollback? || k.AdminGroupEdit? || k.ApiTokenCreate? || k.BackupRestore?
  }

  predicate ExplicitlyGrantable(k: PermissionKey) { k.TriggerEdit? || k.MessageTemplateManage? }

  predicate InCatalogue(k: PermissionKey) { k.Plain? ==> k.index < PLAIN_KEYS }

  function Catalogue(): (keys: set<PermissionKey>)
    ensures forall k :: k in keys <==> InCatalogue(k)
  {
    var plain := set i | 0 <= i < PLAIN_KEYS :: Plain(i);
    assert forall k: PermissionKey :: k.Plain? && k.index < PLAIN_KEYS ==> Plain(k.index) in plain && k == Plain(k.index);
    {UserManageRoles, RoleCreate, RoleEdit, RoleDelete, TriggerEdit, MessageTemplateManage, IntegrationManage,
     PlayerViewIps, PlayerManageAltDetection, ModKick, ModWarn, ModBanTemp, ModBanPerm, ModUnban, HostManage,
     ServerInstall, ServerDelete, ServerForceStop, ServerUpdate, ConfigEdit, ConfigRollback, AdminGroupEdit,
     ApiTokenCreate, BackupRestore}
    + plain
  }

  predicate InSquadCatalogue(k: SquadKey) { k.OtherSquad? ==> k.index < OTHER_SQUAD_KEYS }

  function SquadCatalogue(): (keys: set<SquadKey>)
    ensures forall k :: k in keys <==> InSquadCatalogue(k)
  {
    var others := set i | 0 <= i < OTHER_SQUAD_KEYS :: OtherSquad(i);
    assert forall k: SquadKey :: k.OtherSquad? && k.index < OTHER_SQUAD_KEYS ==> OtherSquad(k.index) in others && k == OtherSquad(k.index);
    {Kick, Ban} + others
  }

  const HIERARCHY_FLAGS := [IsOwner, PanelAccess, CanViewIps, CanAssignRoles, CanEditRoles, CanManageIssues,
                            CanManageBanSources, CanManageIntegrations, CanManageClans, CanManageEconomy,
                            CanManageMedia, CanHandleReports, CombatView]

  predicate Compared(f: Flag) { f != CanManageInfrastructure }

  /** Flags that count only together with `panel_access`. */
  predicate PanelOnly(f: Flag) { f.CanManageBanSources? || f.CanManageEconomy? || f.CanManageMedia? || f.CombatView? }

  datatype Role = Role(name: string, isSystemRole: bool, flags: set<Flag>, squad: set<SquadKey>, explicitKeys: set<PermissionKey>)

  datatype Context = Context(flags: set<Flag>, permissions: set<PermissionKey>, squad: set<SquadKey>, roleId: Option<RoleId>)

  const NO_ROLE := Context({}, {}, {}, None)

  // ----- from a role to the context of its holders

  predicate IsOwnerRole(role: Role) { role.name == "Owner" && role.isSystemRole }

  predicate PassesFlagGates(key: PermissionKey, flags: set<Flag>, squad: set<SquadKey>) {
    && (key == UserManageRoles ==> CanAssignRoles in flags)
    && (RoleEditing(key) || ExplicitlyGrantable(key) ==> CanEditRoles in flags)
    && (key == IntegrationManage ==> CanManageIntegrations in flags)
    && (key == PlayerViewIps ==> CanViewIps in flags)
    && (key == PlayerManageAltDetection ==> CanViewIps in flags && CanEditRoles in flags)
    && (Kicking(key) ==> Kick in squad)
    && (Banning(key) ==> Ban in squad)
    && (Infrastructure(key) ==> CanManageInfrastructure in flags)
  }

  /** What a holder of the role may do, key by key. */
  predicate Grants(role: Role, key: PermissionKey) {
    || IsOwnerRole(role)
    || (PassesFlagGates(key, role.flags, role.squad) && (PanelAccess in role.flags || key in role.explicitKeys))
    || (ExplicitlyGrantable(key) && key in role.explicitKeys)
  }

  predicate Holds(role: Role, f: Flag) {
    Compared(f) && (IsOwnerRole(role) || (f != IsOwner && f in role.flags && (PanelOnly(f) ==> PanelAccess in role.flags)))
  }

  function ContextOf(id: RoleId, role: Role): Context {
    Context((set f: Flag | Holds(role, f)),
            (set k | k in Catalogue() && Grants(role, k)),
            if IsOwnerRole(role) then SquadCatalogue() else role.squad,
            Some(id))
  }

  /** `derivePanelPermissions` and `buildRolePermissionContext`. */
  method BuildRolePermissionContext(id: RoleId, role: Role, catalogue: seq<PermissionKey>, explicitRows: seq<PermissionKey>)
    returns (c: Context)
    requires forall k :: k in catalogue <==> InCatalogue(k)
    requires forall k :: k in explicitRows <==> k in role.explicitKeys
    ensures c == ContextOf(id, role)
  {
    hide PassesFlagGates, InCatalogue, ExplicitlyGrantable, Holds, IsOwnerRole, Catalogue, SquadCatalogue;
    var squad := if IsOwnerRole(role) then SquadCatalogue() else role.squad;
    var permissions: set<PermissionKey> := {};
    if IsOwnerRole(role) {
      permissions := Catalogue();
    } else if PanelAccess in role.flags {
      permissions := Derive(role.flags, squad, catalogue);
    }
    if IsOwnerRole(role) {
      permissions := permissions + set k | k in explicitRows && InCatalogue(k);
    } else {
      permissions := AddExplicit(role.flags, squad, permissions, explicitRows);
    }
    c := Context((set f: Flag | Holds(role, f)), permissions, squad, Some(id));
    assert c.permissions == ContextOf(id, role).permissions;
  }

  method Derive(flags: set<Flag>, squad: set<SquadKey>, catalogue: seq<PermissionKey>) returns (out: set<PermissionKey>)
    ensures forall k :: k in out <==> k in catalogue && PassesFlagGates(k, flags, squad)
  {
    hide PassesFlagGates;
    out := {};
    for i := 0 to |catalogue|
      invariant forall k :: k in out <==> k in catalogue[..i] && PassesFlagGates(k, flags, squad)
    {
      if PassesFlagGates(catalogue[i], flags, squad) {
        out := out + {catalogue[i]};
      }
    }
  }

  method AddExplicit(flags: set<Flag>, squad: set<SquadKey>, derived: set<PermissionKey>, rows: seq<PermissionKey>)
    returns (out: set<PermissionKey>)
    ensures forall k :: k in out <==>
              k in derived || (k in rows && InCatalogue(k) && (ExplicitlyGrantable(k) || PassesFlagGates(k, flags, squad)))
  {
    hide PassesFlagGates, InCatalogue, ExplicitlyGrantable;
    out := derived;
    for i := 0 to |rows|
      invariant forall k :: k in out <==>
                  k in derived || (k in rows[..i] && InCatalogue(k) && (ExplicitlyGrantable(k) || PassesFlagGates(k, flags, squad)))
    {
      if InCatalogue(rows[i]) && (ExplicitlyGrantable(rows[i]) || PassesFlagGates(rows[i], flags, squad)) {
        out := out + {rows[i]};
      }
    }
  }

  /** What each catalogue key needs of a role that is not the Owner's, key by key. */
  predicate Needed(role: Role, key: PermissionKey) {
    match key
    case UserManageRoles => CanAssignRoles in role.flags
    case RoleCreate | RoleEdit | RoleDelete => CanEditRoles in role.flags
    case TriggerEdit | MessageTemplateManage => CanEditRoles in role.flags
    case IntegrationManage => CanManageIntegrations in role.flags
    case PlayerViewIps => CanViewIps in role.flags
    case PlayerManageAltDetection => CanViewIps in role.flags && CanEditRoles in role.flags
    case ModKick | ModWarn => Kick in role.squad
    case ModBanTemp | ModBanPerm | ModUnban => Ban in role.squad
    case HostManage | ServerInstall | ServerDelete | ServerForceStop | ServerUpdate => CanManageInfrastructure in role.flags
    case ConfigEdit | ConfigRollback | AdminGroupEdit | ApiTokenCreate | BackupRestore => CanManageInfrastructure in role.flags
    case Plain(_) => true
  }

  /**
    Key by key, who holds it: the Owner; whoever has panel access and what the key needs; whoever has
    an explicit row for it and what it needs; and for two keys an explicit row is enough.
   */
  lemma HoldsKeyExactly(id: RoleId, role: Role, key: PermissionKey)
    ensures key in ContextOf(id, role).permissions <==>
              && InCatalogue(key)
              && (|| (role.name == "Owner" && role.isSystemRole)
                  || (Needed(role, key) && (PanelAccess in role.flags || key in role.explicitKeys))
                  || (key in role.explicitKeys && key in {TriggerEdit, MessageTemplateManage}))
  {
    hide Catalogue, InCatalogue;
  }

  /** Flag by flag: the infrastructure flag is not part of a context, and four flags count only with panel access. */
  lemma HoldsFlagExactly(id: RoleId, role: Role, flag: Flag)
    ensures flag in ContextOf(id, role).flags <==>
              var owner := role.name == "Owner" && role.isSystemRole;
              match flag
              case IsOwner => owner
              case CanManageInfrastructure => false
              case CanManageBanSources | CanManageEconomy | CanManageMedia | CombatView =>
                owner || (flag in role.flags && PanelAccess in role.flags)
              case _ => owner || flag in role.flags
  {
    hide Catalogue;
  }

  /** A stray explicit row never grants a key whose flag the holder lacks, but for the two documented keys. */
  lemma ExplicitRowsPassTheGates(id: RoleId, role: Role, key: PermissionKey)
    requires !IsOwnerRole(role) && key in ContextOf(id, role).permissions && !ExplicitlyGrantable(key) && !Infrastructure(key)
    ensures PassesFlagGates(key, ContextOf(id, role).flags, ContextOf(id, role).squad)
  {
    hide Catalogue;
    var flags := ContextOf(id, role).flags;
    assert forall f: Flag :: Compared(f) && f != IsOwner && !PanelOnly(f) ==> (f in flags <==> f in role.flags);
    assert PassesFlagGates(key, role.flags, role.squad);
    hide Holds, Grants, IsOwnerRole;
  }

  // ----- the hierarchy

  /** Everything the inner context grants, the outer one grants too. */
  predicate Within(inner: Context, outer: Context) {
    inner.flags <= outer.flags && inner.permissions <= outer.permissions && inner.squad <= outer.squad
  }

  datatype Grant = FlagGrant(flag: Flag) | KeyGrant(key: PermissionKey) | SquadGrant(squad: SquadKey)

  predicate Lacks(actor: Context, target: Context, grant: Grant) {
    match grant
    case FlagGrant(flag) => Compared(flag) && flag in target.flags && flag !in actor.flags
    case KeyGrant(key) => key in target.permissions && key !in actor.permissions
    case SquadGrant(key) => key in target.squad && key !in actor.squad
  }

  /** Contexts hold no flags but the ones the hierarchy compares. */
  predicate Proper(c: Context) { forall f :: f in c.flags ==> Compared(f) }

  /** `grantsBeyond`: every grant the actor lacks, once; none exactly when the target fits. */
  method GrantsBeyond(actor: Context, target: Context) returns (missing: seq<Grant>)
    requires Proper(target)
    ensures forall g :: g in missing <==> Lacks(actor, target, g)
    ensures Distinct(missing)
    ensures missing == [] <==> Within(target, actor)
  {
    ComparedFlags();
    missing := FlagsBeyond(actor, target, HIERARCHY_FLAGS);
    var keys := target.permissions;
    while keys != {}
      invariant keys <= target.permissions
      invariant forall g :: g in missing <==>
                  Lacks(actor, target, g) && (g.FlagGrant? || (g.KeyGrant? && g.key !in keys))
      invariant Distinct(missing)
      decreases keys
    {
      var key :| key in keys;
      if key !in actor.permissions {
        missing := missing + [KeyGrant(key)];
      }
      keys := keys - {key};
    }
    var squad := target.squad;
    while squad != {}
      invariant squad <= target.squad
      invariant forall g :: g in missing <==>
                  Lacks(actor, target, g) && (g.FlagGrant? || g.KeyGrant? || g.squad !in squad)
      invariant Distinct(missing)
      decreases squad
    {
      var key :| key in squad;
      if key !in actor.squad {
        missing := missing + [SquadGrant(key)];
      }
      squad := squad - {key};
    }
    NothingMissing(actor, target, missing);
  }

  method FlagsBeyond(actor: Context, target: Context, flags: seq<Flag>) returns (missing: seq<Grant>)
    requires Distinct(flags)
    ensures forall g :: g in missing <==> g.FlagGrant? && g.flag in flags && g.flag in target.flags && g.flag !in actor.flags
    ensures Distinct(missing)
  {
    missing := [];
    for i := 0 to |flags|
      invariant forall g :: g in missing <==>
                  g.FlagGrant? && g.flag in flags[..i] && g.flag in target.flags && g.flag !in actor.flags
      invariant Distinct(missing)
    {
      if flags[i] in target.flags && flags[i] !in actor.flags {
        missing := missing + [FlagGrant(flags[i])];
      }
    }
  }

  lemma ComparedFlags()
    ensures Distinct(HIERARCHY_FLAGS) && forall f: Flag :: f in HIERARCHY_FLAGS <==> Compared(f)
  {}

  predicate Distinct<T(==)>(s: seq<T>) { forall i, j :: 0 <= i < j < |s| ==> s[i] != s[j] }

  lemma NothingMissing(actor: Context, target: Context, missing: seq<Grant>)
    requires Proper(target) && forall g :: g in missing <==> Lacks(actor, target, g)
    ensures missing == [] <==> Within(target, actor)
  {
    if missing != [] {
      assert missing[0] in missing;
      assert Lacks(actor, target, missing[0]);
    } else {
      assert forall f :: f in target.flags ==> !Lacks(actor, target, FlagGrant(f));
      assert forall k :: k in target.permissions ==> !Lacks(actor, target, KeyGrant(k));
      assert forall k :: k in target.squad ==> !Lacks(actor, target, SquadGrant(k));
    }
  }

  lemma Transitive(a: Context, b: Context, c: Context)
    requires Within(a, b) && Within(b, c)
    ensures Within(a, c)
  {}

  /** An Owner's context holds every other one. */
  lemma OwnerHoldsAll(ownerId: RoleId, owner: Role, id: RoleId, role: Role)
    requires IsOwnerRole(owner) && role.squad <= SquadCatalogue()
    ensures Within(ContextOf(id, role), ContextOf(ownerId, owner))
  {}

  // ----- API tokens

  /** `narrowToTokenScopes`. */
  function Narrow(c: Context, scopes: set<PermissionKey>): (r: Context)
    ensures Within(r, c) && IsOwner !in r.flags && r.permissions == c.permissions * scopes * Catalogue()
  {
    var permissions := c.permissions * scopes * Catalogue();
    Context((set f | f in c.flags && Delegated(f, permissions)),
            permissions,
            (set k | k in c.squad && ((k == Kick && ModKick in permissions && ModWarn in permissions)
                              || (k == Ban && ModBanTemp in permissions && ModBanPerm in permissions && ModUnban in permissions))),
            c.roleId)
  }

  /** The key is the role's and delegated to the token. */
  predicate Carries(c: Context, scopes: set<PermissionKey>, key: PermissionKey) {
    key in c.permissions && key in scopes && InCatalogue(key)
  }

  /** What a token keeps of its role, by name; everything else is not delegated. */
  lemma NarrowKeepsExactly(c: Context, scopes: set<PermissionKey>, flag: Flag, squad: SquadKey)
    ensures flag in Narrow(c, scopes).flags <==>
              && flag in c.flags
              && match flag
                 case PanelAccess => exists key :: Carries(c, scopes, key)
                 case CanViewIps => Carries(c, scopes, PlayerViewIps)
                 case CanAssignRoles => Carries(c, scopes, UserManageRoles)
                 case CanEditRoles => Carries(c, scopes, RoleCreate) && Carries(c, scopes, RoleEdit) && Carries(c, scopes, RoleDelete)
                 case CanManageIntegrations => Carries(c, scopes, IntegrationManage)
                 case _ => false
    ensures squad in Narrow(c, scopes).squad <==>
              && squad in c.squad
              && match squad
                 case Kick => Carries(c, scopes, ModKick) && Carries(c, scopes, ModWarn)
                 case Ban => Carries(c, scopes, ModBanTemp) && Carries(c, scopes, ModBanPerm) && Carries(c, scopes, ModUnban)
                 case OtherSquad(_) => false
    ensures Narrow(c, scopes).roleId == c.roleId
  {
    hide Catalogue, InCatalogue;
    var kept := Narrow(c, scopes).permissions;
    assert forall key :: key in kept <==> Carries(c, scopes, key);
    if kept != {} {
      var key :| key in kept;
      assert Carries(c, scopes, key);
    }
  }

  predicate Delegated(flag: Flag, permissions: set<PermissionKey>) {
    match flag
    case PanelAccess => permissions != {}
    case CanViewIps => PlayerViewIps in permissions
    case CanAssignRoles => UserManageRoles in permissions
    case CanEditRoles => RoleCreate in permissions && RoleEdit in permissions && RoleDelete in permissions
    case CanManageIntegrations => IntegrationManage in permissions
    case _ => false
  }

  /** Narrowing by two scope lists is narrowing by what they share; so it never widens and is idempotent. */
  lemma NarrowTwice(c: Context, first: set<PermissionKey>, second: set<PermissionKey>)
    ensures Narrow(Narrow(c, first), second) == Narrow(c, first * second)
  {
    hide Catalogue, InCatalogue;
    var once, twice, both := Narrow(c, first), Narrow(Narrow(c, first), second), Narrow(c, first * second);
    assert twice.permissions == both.permissions;
    assert twice.permissions <= once.permissions;
    forall f: Flag
      ensures f in twice.flags <==> f in both.flags
    {
      DelegatedKept(f, twice.permissions, once.permissions);
    }
    assert twice.flags == both.flags;
    assert twice.squad == both.squad;
  }

  lemma DelegatedKept(f: Flag, fewer: set<PermissionKey>, more: set<PermissionKey>)
    requires fewer <= more
    ensures Delegated(f, fewer) ==> Delegated(f, more)
  {}

  /** A token with every scope keeps the flags that have keys of their own, for a role with panel access. */
  lemma AllScopesKeepKeyedFlags(id: RoleId, role: Role, flag: Flag)
    requires flag in {PanelAccess, CanViewIps, CanAssignRoles, CanEditRoles, CanManageIntegrations}
    requires PanelAccess in role.flags
    ensures flag in Narrow(ContextOf(id, role), Catalogue()).flags <==> flag in ContextOf(id, role).flags
  {
    hide PassesFlagGates, Grants, Catalogue;
    var c := ContextOf(id, role);
    var n := Narrow(c, Catalogue());
    assert n.permissions == c.permissions;
    if Holds(role, flag) {
      KeyedGrants(role, flag);
      assert Plain(0) in c.permissions;
    }
  }

  lemma KeyedGrants(role: Role, flag: Flag)
    requires PanelAccess in role.flags && Holds(role, flag)
    ensures Grants(role, Plain(0))
    ensures flag == CanViewIps ==> Grants(role, PlayerViewIps)
    ensures flag == CanAssignRoles ==> Grants(role, UserManageRoles)
    ensures flag == CanEditRoles ==> Grants(role, RoleCreate) && Grants(role, RoleEdit) && Grants(role, RoleDelete)
    ensures flag == CanManageIntegrations ==> Grants(role, IntegrationManage)
  {}
}
