/**
 The role and permission catalog (`tools/domo-bootstrap/src/catalog.rs`): the validator with its
 growing sets against a rule stated over the whole catalog, and the projection onto a manifest.
 */
module Catalog {
  import opened Common
  import opened Naming

  datatype PermissionEntry = PermissionEntry(action: string, description: string)

  datatype RoleEntry = RoleEntry(name: string, description: string, permissions: seq<string>)

  datatype GroupTemplate = GroupTemplate(resourceType: string, roles: seq<string>)

  datatype Catalog = Catalog(
    version: nat,
    groupPattern: string,
    permissions: seq<PermissionEntry>,
    roles: seq<RoleEntry>,
    templates: seq<GroupTemplate>)

  datatype CatalogError =
    | UnsupportedVersion(version: nat)
    | NoGroupPattern
    | BlankAction
    | WildcardAction(action: string, c: char)
    | PermissionUndescribed(action: string)
    | PermissionTwice(action: string)
    | BlankRole
    | WildcardRole(role: string, c: char)
    | RoleUndescribed(role: string)
    | RoleTwice(role: string)
    | WildcardGrant(role: string, action: string, c: char)
    | DanglingGrant(role: string, action: string)
    | GrantTwice(role: string, action: string)
    | BlankResourceType
    | TemplateTwice(resourceType: string)
    | DanglingTemplateRole(resourceType: string, role: string)

  predicate IsWildcard(c: char) { c == '*' || c == '?' || c == '%' }

  predicate WildcardFree(s: string) {
    forall i | 0 <= i < |s| :: !IsWildcard(s[i])
  }

  predicate FirstWildcard(s: string, i: nat, c: char) {
    i < |s| && s[i] == c && IsWildcard(c) && forall j | 0 <= j < i :: !IsWildcard(s[j])
  }

  function WildcardIn(s: string): (r: Option<char>)
    ensures r.None? <==> WildcardFree(s)
    ensures r.Some? ==> exists i: nat :: FirstWildcard(s, i, r.value)
  {
    if s == "" then None
    else if IsWildcard(s[0]) then
      assert FirstWildcard(s, 0, s[0]);
      Some(s[0])
    else
      assert forall i: nat, c | FirstWildcard(s[1..], i, c) :: FirstWildcard(s, i + 1, c);
      WildcardIn(s[1..])
  }

  // ---------------------------------------------------------------- the rule

  predicate Defines(permissions: seq<PermissionEntry>, action: string) {
    exists j | 0 <= j < |permissions| :: permissions[j].action == action
  }

  predicate Names(roles: seq<RoleEntry>, name: string) {
    exists j | 0 <= j < |roles| :: roles[j].name == name
  }

  predicate Templates(templates: seq<GroupTemplate>, resourceType: string) {
    exists j | 0 <= j < |templates| :: templates[j].resourceType == resourceType
  }

  predicate GoodPermission(p: PermissionEntry) {
    !IsBlank(p.action) && WildcardFree(p.action) && !IsBlank(p.description)
  }

  predicate GoodRole(r: RoleEntry, permissions: seq<PermissionEntry>) {
    && !IsBlank(r.name) && WildcardFree(r.name) && !IsBlank(r.description)
    && (forall k | 0 <= k < |r.permissions| :: Defines(permissions, r.permissions[k]))
    && (forall k, l | 0 <= k < l < |r.permissions| :: r.permissions[k] != r.permissions[l])
  }

  predicate GoodTemplate(t: GroupTemplate, roles: seq<RoleEntry>) {
    !IsBlank(t.resourceType) && forall k | 0 <= k < |t.roles| :: Names(roles, t.roles[k])
  }

  predicate DistinctActions(permissions: seq<PermissionEntry>) {
    forall i, j | 0 <= i < j < |permissions| :: permissions[i].action != permissions[j].action
  }

  /**
   What an accepted catalog is: every entry filled in and wildcard-free, every key defined once,
   every grant and every template role defined.
   */
  predicate WellFormed(c: Catalog) {
    && c.version == 1 && !IsBlank(c.groupPattern)
    && (forall i | 0 <= i < |c.permissions| :: GoodPermission(c.permissions[i]))
    && DistinctActions(c.permissions)
    && (forall i | 0 <= i < |c.roles| :: GoodRole(c.roles[i], c.permissions))
    && (forall i, j | 0 <= i < j < |c.roles| :: c.roles[i].name != c.roles[j].name)
    && (forall i | 0 <= i < |c.templates| :: GoodTemplate(c.templates[i], c.roles))
    && (forall i, j | 0 <= i < j < |c.templates| :: c.templates[i].resourceType != c.templates[j].resourceType)
  }

  // ---------------------------------------------------------------- what is reported

  /** What is wrong with one entry, given the entries before it; the checks in their order. */
  function PermissionFault(p: PermissionEntry, before: seq<PermissionEntry>): Option<CatalogError> {
    if IsBlank(p.action) then Some(BlankAction)
    else if WildcardIn(p.action).Some? then Some(WildcardAction(p.action, WildcardIn(p.action).value))
    else if IsBlank(p.description) then Some(PermissionUndescribed(p.action))
    else if Defines(before, p.action) then Some(PermissionTwice(p.action))
    else None
  }

  function GrantFault(r: RoleEntry, k: nat, permissions: seq<PermissionEntry>): Option<CatalogError>
    requires k < |r.permissions|
  {
    var action := r.permissions[k];
    if WildcardIn(action).Some? then Some(WildcardGrant(r.name, action, WildcardIn(action).value))
    else if !Defines(permissions, action) then Some(DanglingGrant(r.name, action))
    else if action in r.permissions[..k] then Some(GrantTwice(r.name, action))
    else None
  }

  function RoleFault(r: RoleEntry, before: seq<RoleEntry>): Option<CatalogError> {
    if IsBlank(r.name) then Some(BlankRole)
    else if WildcardIn(r.name).Some? then Some(WildcardRole(r.name, WildcardIn(r.name).value))
    else if IsBlank(r.description) then Some(RoleUndescribed(r.name))
    else if Names(before, r.name) then Some(RoleTwice(r.name))
    else None
  }

  function TemplateFault(t: GroupTemplate, before: seq<GroupTemplate>): Option<CatalogError> {
    if IsBlank(t.resourceType) then Some(BlankResourceType)
    else if Templates(before, t.resourceType) then Some(TemplateTwice(t.resourceType))
    else None
  }

  predicate PermissionsPass(c: Catalog, n: nat) {
    && n <= |c.permissions|
    && forall i | 0 <= i < n :: PermissionFault(c.permissions[i], c.permissions[..i]).None?
  }

  predicate GrantsPass(c: Catalog, i: nat, n: nat) {
    && i < |c.roles| && n <= |c.roles[i].permissions|
    && forall k | 0 <= k < n :: GrantFault(c.roles[i], k, c.permissions).None?
  }

  predicate RolesPass(c: Catalog, n: nat) {
    && n <= |c.roles|
    && forall i | 0 <= i < n ::
      RoleFault(c.roles[i], c.roles[..i]).None? && GrantsPass(c, i, |c.roles[i].permissions|)
  }

  predicate RoleNamesPass(c: Catalog, i: nat, n: nat) {
    && i < |c.templates| && n <= |c.templates[i].roles|
    && forall k | 0 <= k < n :: Names(c.roles, c.templates[i].roles[k])
  }

  predicate TemplatesPass(c: Catalog, n: nat) {
    && n <= |c.templates|
    && forall i | 0 <= i < n ::
      TemplateFault(c.templates[i], c.templates[..i]).None? && RoleNamesPass(c, i, |c.templates[i].roles|)
  }

  ghost predicate BlamesPermission(c: Catalog, e: CatalogError) {
    exists i: nat :: PermissionsPass(c, i) && i < |c.permissions| &&
      PermissionFault(c.permissions[i], c.permissions[..i]) == Some(e)
  }

  ghost predicate BlamesRole(c: Catalog, e: CatalogError) {
    exists i: nat :: RolesPass(c, i) && i < |c.roles| && RoleFault(c.roles[i], c.roles[..i]) == Some(e)
  }

  ghost predicate BlamesGrant(c: Catalog, e: CatalogError) {
    exists i: nat, k: nat :: RolesPass(c, i) && GrantsPass(c, i, k) && k < |c.roles[i].permissions| &&
      RoleFault(c.roles[i], c.roles[..i]).None? && GrantFault(c.roles[i], k, c.permissions) == Some(e)
  }

  ghost predicate BlamesTemplate(c: Catalog, e: CatalogError) {
    exists i: nat :: TemplatesPass(c, i) && i < |c.templates| &&
      TemplateFault(c.templates[i], c.templates[..i]) == Some(e)
  }

  ghost predicate BlamesTemplateRole(c: Catalog, e: CatalogError) {
    exists i: nat, k: nat :: TemplatesPass(c, i) && RoleNamesPass(c, i, k) && k < |c.templates[i].roles| &&
      TemplateFault(c.templates[i], c.templates[..i]).None? && !Names(c.roles, c.templates[i].roles[k]) &&
      e == DanglingTemplateRole(c.templates[i].resourceType, c.templates[i].roles[k])
  }

  /** The error is the first thing wrong, reading the catalog from its top. */
  ghost predicate Blames(c: Catalog, e: CatalogError) {
    if c.version != 1 then e == UnsupportedVersion(c.version)
    else if IsBlank(c.groupPattern) then e == NoGroupPattern
    else if !PermissionsPass(c, |c.permissions|) then BlamesPermission(c, e)
    else if !RolesPass(c, |c.roles|) then BlamesRole(c, e) || BlamesGrant(c, e)
    else BlamesTemplate(c, e) || BlamesTemplateRole(c, e)
  }

  // ---------------------------------------------------------------- the two readings agree

  lemma PermissionsPassExactly(c: Catalog)
    ensures PermissionsPass(c, |c.permissions|) <==>
              (forall i | 0 <= i < |c.permissions| :: GoodPermission(c.permissions[i])) &&
              (forall i, j | 0 <= i < j < |c.permissions| :: c.permissions[i].action != c.permissions[j].action)
  {
  }

  lemma GrantsPassExactly(c: Catalog, i: nat)
    requires i < |c.roles|
    requires forall k | 0 <= k < |c.permissions| :: WildcardFree(c.permissions[k].action)
    ensures GrantsPass(c, i, |c.roles[i].permissions|) <==>
              (forall k | 0 <= k < |c.roles[i].permissions| :: Defines(c.permissions, c.roles[i].permissions[k])) &&
              (forall k, l | 0 <= k < l < |c.roles[i].permissions| ::
                 c.roles[i].permissions[k] != c.roles[i].permissions[l])
  {
    var r := c.roles[i];
    forall k | 0 <= k < |r.permissions|
      ensures GrantFault(r, k, c.permissions).None? <==>
                Defines(c.permissions, r.permissions[k]) &&
                    forall l | 0 <= l < k :: r.permissions[l] != r.permissions[k]
    {
      assert forall l | 0 <= l < k :: r.permissions[..k][l] == r.permissions[l];
    }
  }

  lemma RolesPassExactly(c: Catalog)
    requires forall k | 0 <= k < |c.permissions| :: WildcardFree(c.permissions[k].action)
    ensures RolesPass(c, |c.roles|) <==>
              (forall i | 0 <= i < |c.roles| :: GoodRole(c.roles[i], c.permissions)) &&
              (forall i, j | 0 <= i < j < |c.roles| :: c.roles[i].name != c.roles[j].name)
  {
    var rs := c.roles;
    forall i | 0 <= i < |rs|
      ensures RoleFault(rs[i], rs[..i]).None? && GrantsPass(c, i, |rs[i].permissions|) <==>
                GoodRole(rs[i], c.permissions) && forall j | 0 <= j < i :: rs[j].name != rs[i].name
    {
      GrantsPassExactly(c, i);
      assert forall j | 0 <= j < i :: rs[..i][j] == rs[j];
    }
  }

  lemma TemplatesPassExactly(c: Catalog)
    ensures TemplatesPass(c, |c.templates|) <==>
              (forall i | 0 <= i < |c.templates| :: GoodTemplate(c.templates[i], c.roles)) &&
              (forall i, j | 0 <= i < j < |c.templates| :: c.templates[i].resourceType != c.templates[j].resourceType)
  {
  }

  /** Passing every check in turn is the rule: a wildcard grant is always a dangling one too. */
  lemma ChecksAreTheRule(c: Catalog)
    ensures WellFormed(c) <==>
              c.version == 1 && !IsBlank(c.groupPattern) && PermissionsPass(c, |c.permissions|) &&
              RolesPass(c, |c.roles|) && TemplatesPass(c, |c.templates|)
  {
    PermissionsPassExactly(c);
    TemplatesPassExactly(c);
    if PermissionsPass(c, |c.permissions|) {
      assert forall k | 0 <= k < |c.permissions| :: GoodPermission(c.permissions[k]);
      RolesPassExactly(c);
    }
  }

  // ---------------------------------------------------------------- validation

  method ValidatePermissions(c: Catalog) returns (r: Result<set<string>, CatalogError>)
    ensures r.Ok? <==> PermissionsPass(c, |c.permissions|)
    ensures r.Ok? ==> forall a :: a in r.value <==> Defines(c.permissions, a)
    ensures r.Err? ==> BlamesPermission(c, r.error)
  {
    var actions: set<string> := {};
    for i := 0 to |c.permissions|
      invariant PermissionsPass(c, i)
      invariant forall a :: a in actions <==> Defines(c.permissions[..i], a)
    {
      var p := c.permissions[i];
      ghost var before := c.permissions[..i];
      assert c.permissions[..i + 1] == before + [p];
      assert forall a :: Defines(before + [p], a) <==> Defines(before, a) || p.action == a by {
        forall a | Defines(before, a) ensures Defines(before + [p], a) {
          var j :| 0 <= j < |before| && before[j].action == a;
          assert (before + [p])[j].action == a;
        }
        assert (before + [p])[i] == p;
      }
      var w := WildcardIn(p.action);
      if IsBlank(p.action) {
        return Err(BlankAction);
      } else if w.Some? {
        return Err(WildcardAction(p.action, w.value));
      } else if IsBlank(p.description) {
        return Err(PermissionUndescribed(p.action));
      } else if p.action in actions {
        return Err(PermissionTwice(p.action));
      }
      actions := actions + {p.action};
    }
    assert c.permissions[..|c.permissions|] == c.permissions;
    r := Ok(actions);
  }

  method ValidateGrants(c: Catalog, i: nat, actions: set<string>) returns (r: Result<(), CatalogError>)
    requires RolesPass(c, i) && i < |c.roles| && RoleFault(c.roles[i], c.roles[..i]).None?
    requires forall a :: a in actions <==> Defines(c.permissions, a)
    ensures r.Ok? <==> GrantsPass(c, i, |c.roles[i].permissions|)
    ensures r.Err? ==> BlamesGrant(c, r.error)
  {
    var role := c.roles[i];
    var granted: set<string> := {};
    for k := 0 to |role.permissions|
      invariant GrantsPass(c, i, k)
      invariant forall a :: a in granted <==> a in role.permissions[..k]
    {
      var action := role.permissions[k];
      assert role.permissions[..k + 1] == role.permissions[..k] + [action];
      ghost var fault := GrantFault(role, k, c.permissions);
      var w := WildcardIn(action);
      if w.Some? {
        return Err(WildcardGrant(role.name, action, w.value));
      } else if action !in actions {
        return Err(DanglingGrant(role.name, action));
      } else if action in granted {
        return Err(GrantTwice(role.name, action));
      }
      granted := granted + {action};
    }
    r := Ok(());
  }

  method ValidateRoles(c: Catalog, actions: set<string>) returns (r: Result<set<string>, CatalogError>)
    requires forall a :: a in actions <==> Defines(c.permissions, a)
    ensures r.Ok? <==> RolesPass(c, |c.roles|)
    ensures r.Ok? ==> forall n :: n in r.value <==> Names(c.roles, n)
    ensures r.Err? ==> BlamesRole(c, r.error) || BlamesGrant(c, r.error)
  {
    var names: set<string> := {};
    for i := 0 to |c.roles|
      invariant RolesPass(c, i)
      invariant forall n :: n in names <==> Names(c.roles[..i], n)
    {
      var role := c.roles[i];
      ghost var before := c.roles[..i];
      assert c.roles[..i + 1] == before + [role];
      assert forall n :: Names(before + [role], n) <==> Names(before, n) || role.name == n by {
        forall n | Names(before, n) ensures Names(before + [role], n) {
          var j :| 0 <= j < |before| && before[j].name == n;
          assert (before + [role])[j].name == n;
        }
        assert (before + [role])[i] == role;
      }
      var w := WildcardIn(role.name);
      if IsBlank(role.name) {
        return Err(BlankRole);
      } else if w.Some? {
        return Err(WildcardRole(role.name, w.value));
      } else if IsBlank(role.description) {
        return Err(RoleUndescribed(role.name));
      } else if role.name in names {
        return Err(RoleTwice(role.name));
      }
      var grants := ValidateGrants(c, i, actions);
      if grants.Err? {
        return Err(grants.error);
      }
      names := names + {role.name};
    }
    assert c.roles[..|c.roles|] == c.roles;
    r := Ok(names);
  }

  method ValidateTemplates(c: Catalog, names: set<string>) returns (r: Result<(), CatalogError>)
    requires forall n :: n in names <==> Names(c.roles, n)
    ensures r.Ok? <==> TemplatesPass(c, |c.templates|)
    ensures r.Err? ==> BlamesTemplate(c, r.error) || BlamesTemplateRole(c, r.error)
  {
    var types: set<string> := {};
    for i := 0 to |c.templates|
      invariant TemplatesPass(c, i)
      invariant forall t :: t in types <==> Templates(c.templates[..i], t)
    {
      var template := c.templates[i];
      ghost var before := c.templates[..i];
      assert c.templates[..i + 1] == before + [template];
      assert forall t :: Templates(before + [template], t) <==> Templates(before, t) || template.resourceType == t by {
        forall t | Templates(before, t) ensures Templates(before + [template], t) {
          var j :| 0 <= j < |before| && before[j].resourceType == t;
          assert (before + [template])[j].resourceType == t;
        }
        assert (before + [template])[i] == template;
      }
      if IsBlank(template.resourceType) {
        return Err(BlankResourceType);
      } else if template.resourceType in types {
        return Err(TemplateTwice(template.resourceType));
      }
      types := types + {template.resourceType};
      for k := 0 to |template.roles|
        invariant RoleNamesPass(c, i, k)
      {
        if template.roles[k] !in names {
          return Err(DanglingTemplateRole(template.resourceType, template.roles[k]));
        }
      }
    }
    r := Ok(());
  }

  /** Accepts exactly the well-formed catalogs, and names the first thing wrong with any other. */
  method Validate(c: Catalog) returns (r: Result<(), CatalogError>)
    ensures r.Ok? <==> WellFormed(c)
    ensures r.Err? ==> Blames(c, r.error)
  {
    ChecksAreTheRule(c);
    if c.version != 1 {
      return Err(UnsupportedVersion(c.version));
    }
    if IsBlank(c.groupPattern) {
      return Err(NoGroupPattern);
    }
    var actions := ValidatePermissions(c);
    if actions.Err? {
      return Err(actions.error);
    }
    var names := ValidateRoles(c, actions.value);
    if names.Err? {
      return Err(names.error);
    }
    r := ValidateTemplates(c, names.value);
  }

  // ---------------------------------------------------------------- the manifest

  datatype PermissionSpec = PermissionSpec(key: string, action: string, description: string)

  datatype Effect = Allow | Deny

  datatype GrantSpec = GrantSpec(permissionKey: string, effect: Effect)

  datatype RoleSpec = RoleSpec(key: string, name: string, description: string, grants: seq<GrantSpec>, global: bool)

  datatype Manifest = Manifest(permissions: seq<PermissionSpec>, roles: seq<RoleSpec>)

  /** What the server reads out of a manifest: the role's grants, each looked up by key. */
  ghost predicate ManifestGrants(m: Manifest, role: string, action: string) {
    exists i, k, p | 0 <= i < |m.roles| && 0 <= k < |m.roles[i].grants| && 0 <= p < |m.permissions| ::
      && m.roles[i].name == role && m.roles[i].grants[k].effect == Allow
      && m.roles[i].grants[k].permissionKey == m.permissions[p].key && m.permissions[p].action == action
  }

  ghost predicate CatalogGrants(c: Catalog, role: string, action: string) {
    exists i | 0 <= i < |c.roles| :: c.roles[i].name == role && action in c.roles[i].permissions
  }

  predicate ProjectsRole(r: RoleEntry, spec: RoleSpec) {
    && spec.key == spec.name == r.name && spec.description == r.description && !spec.global
    && |spec.grants| == |r.permissions|
    && forall k | 0 <= k < |r.permissions| :: spec.grants[k] == GrantSpec(r.permissions[k], Allow)
  }

  predicate ProjectsPermissions(permissions: seq<PermissionEntry>, specs: seq<PermissionSpec>) {
    && |specs| == |permissions|
    && forall i | 0 <= i < |permissions| ::
      specs[i].key == specs[i].action == permissions[i].action && specs[i].description == permissions[i].description
  }

  predicate Projects(c: Catalog, m: Manifest) {
    && ProjectsPermissions(c.permissions, m.permissions) && |m.roles| == |c.roles|
    && (forall i | 0 <= i < |c.roles| :: ProjectsRole(c.roles[i], m.roles[i]))
  }

  method ToManifest(c: Catalog) returns (m: Manifest)
    ensures Projects(c, m)
  {
    m := Manifest([], []);
    for i := 0 to |c.permissions|
      invariant m.roles == [] && ProjectsPermissions(c.permissions[..i], m.permissions)
    {
      var p := c.permissions[i];
      m := m.(permissions := m.permissions + [PermissionSpec(p.action, p.action, p.description)]);
    }
    assert c.permissions[..|c.permissions|] == c.permissions;
    for i := 0 to |c.roles|
      invariant ProjectsPermissions(c.permissions, m.permissions) && |m.roles| == i
      invariant forall j | 0 <= j < i :: ProjectsRole(c.roles[j], m.roles[j])
    {
      var r := c.roles[i];
      var role := RoleSpec(r.name, r.name, r.description, [], false);
      for k := 0 to |r.permissions|
        invariant role == RoleSpec(r.name, r.name, r.description, role.grants, false)
        invariant |role.grants| == k
        invariant forall l | 0 <= l < k :: role.grants[l] == GrantSpec(r.permissions[l], Allow)
      {
        role := role.(grants := role.grants + [GrantSpec(r.permissions[k], Allow)]);
      }
      m := m.(roles := m.roles + [role]);
    }
  }

  ghost predicate ResolvesOnce(specs: seq<PermissionSpec>, key: string) {
    exists p | 0 <= p < |specs| ::
      specs[p].key == key && specs[p].action == key && forall q | 0 <= q < |specs| && specs[q].key == key :: q == p
  }

  /** The manifest of an accepted catalog has distinct keys and every grant names one permission. */
  lemma ManifestKeysResolve(c: Catalog, m: Manifest)
    requires WellFormed(c) && Projects(c, m)
    ensures forall i, j | 0 <= i < j < |m.permissions| :: m.permissions[i].key != m.permissions[j].key
    ensures forall i, j | 0 <= i < j < |m.roles| :: m.roles[i].key != m.roles[j].key
    ensures forall i: nat, k: nat | i < |m.roles| && k < |m.roles[i].grants| ::
        ResolvesOnce(m.permissions, m.roles[i].grants[k].permissionKey)
  {
  }

  /** Applied to a tenant, the manifest gives each role exactly the actions the catalog lists. */
  lemma ManifestGrantsExactly(c: Catalog, m: Manifest, role: string, action: string)
    requires WellFormed(c) && Projects(c, m)
    ensures ManifestGrants(m, role, action) <==> CatalogGrants(c, role, action)
    ensures CatalogGrants(c, role, action) ==> WildcardFree(action)
  {
  }

  // ---------------------------------------------------------------- structural roles

  /** The roles of the first template for this type; none for an unlisted type. */
  function RolesFor(templates: seq<GroupTemplate>, resourceType: string): seq<string> {
    if templates == [] then []
    else if templates[0].resourceType == resourceType then templates[0].roles
    else RolesFor(templates[1..], resourceType)
  }

  lemma {:induction false} RolesForIsATemplate(templates: seq<GroupTemplate>, resourceType: string)
    ensures !Templates(templates, resourceType) ==> RolesFor(templates, resourceType) == []
    ensures Templates(templates, resourceType) ==>
              exists i | 0 <= i < |templates| ::
                templates[i].resourceType == resourceType && RolesFor(templates, resourceType) == templates[i].roles
  {
    if templates != [] && templates[0].resourceType != resourceType {
      var rest := templates[1..];
      RolesForIsATemplate(rest, resourceType);
      assert forall i | 0 <= i < |rest| :: rest[i] == templates[i + 1];
      assert Templates(templates, resourceType) <==> Templates(rest, resourceType) by {
        forall i | 0 <= i < |templates| && templates[i].resourceType == resourceType
          ensures Templates(rest, resourceType)
        {
          assert rest[i - 1] == templates[i];
        }
      }
    }
  }

  /** In an accepted catalog the answer does not depend on the order: one template can match. */
  lemma RolesForHasOneCandidate(c: Catalog, resourceType: string, i: nat)
    requires WellFormed(c) && i < |c.templates| && c.templates[i].resourceType == resourceType
    ensures RolesFor(c.templates, resourceType) == c.templates[i].roles
    ensures forall k | 0 <= k < |c.templates[i].roles| :: Names(c.roles, c.templates[i].roles[k])
  {
    RolesForIsATemplate(c.templates, resourceType);
    var j :| 0 <= j < |c.templates| && c.templates[j].resourceType == resourceType &&
      RolesFor(c.templates, resourceType) == c.templates[j].roles;
    assert GoodTemplate(c.templates[i], c.roles);
  }

  /** The shipped catalog's templates. */
  const SHIPPED: seq<GroupTemplate> :=
    [GroupTemplate("portfolio", ["property-manager"]), GroupTemplate("site", ["installer", "concierge"]),
     GroupTemplate("common", ["common-operator", "common-device-manager"]), GroupTemplate("apartment", ["resident"])]

  lemma TheFirstOrTheRest(templates: seq<GroupTemplate>, first: GroupTemplate, rest: seq<GroupTemplate>, key: string)
    requires templates == [first] + rest
    ensures RolesFor(templates, key) == if first.resourceType == key then first.roles else RolesFor(rest, key)
  {
  }

  /** The code's table of structural groups is the shipped catalog's, for every kind of node. */
  lemma CodeAgreesWithTheCatalog(kind: Kind)
    ensures RolesFor(SHIPPED, ResourceType(kind)) == StructuralGroupsFor(kind)
  {
    var key := ResourceType(kind);
    TheFirstOrTheRest(SHIPPED, SHIPPED[0], SHIPPED[1..], key);
    TheFirstOrTheRest(SHIPPED[1..], SHIPPED[1], SHIPPED[2..], key);
    TheFirstOrTheRest(SHIPPED[2..], SHIPPED[2], SHIPPED[3..], key);
    TheFirstOrTheRest(SHIPPED[3..], SHIPPED[3], [], key);
  }
}
