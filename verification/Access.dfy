/**
 What the shipped roles reach on a resource tree (`authz/catalog.toml`, `naming.rs`,
 `stages/tree.rs`). The decision itself is the server's; of it only the stated rule is assumed:
 a decision is an allow exactly when some group of the subject holds a role that grants the action,
 scoped to the resource or to one above it. There is no deny.
 */
module Access {
  import opened Common
  import opened Naming
  import opened Remote

  datatype Node = Node(kind: Kind, slug: string, parent: Option<nat>)

  type Tree = map<nat, Node>

  const OPERATE := "device:operate"

  /** The catalog's role table. */
  function Actions(role: string): seq<string> {
    match role
    case "property-manager" =>
      ["structure:create", "structure:read", "structure:update", "structure:delete", "member:assign", "device:read"]
    case "installer" => ["device:create", "device:read", "device:update", "device:delete", "device:configure"]
    case "concierge" => ["structure:read", "device:read"]
    case "resident" =>
      ["device:create", "device:read", "device:update", "device:delete", "device:configure", "device:operate",
       "grant:manage"]
    case "granted-operator" => ["device:operate"]
    case "device-self" => ["twin:report", "command:receive", "intercom:call"]
    case "common-operator" => ["device:read", "device:operate"]
    case "common-device-manager" =>
      ["device:create", "device:read", "device:update", "device:delete", "device:configure"]
    case _ => []
  }

  predicate GrantsOperate(role: string) { OPERATE in Actions(role) }

  lemma ThreeRolesOperate(role: string)
    ensures GrantsOperate(role) <==> role == "resident" || role == "granted-operator" || role == "common-operator"
  {
  }

  /**
   The naming scheme and the catalog agree on the roles: every role that grants anything either has its
   groups made with the nodes of one kind, or of the two kinds of common area, or is one of the two that
   devices and their guests hold.
   */
  lemma EveryRoleHasItsPlace(role: string, k1: Kind, k2: Kind)
    ensures Actions(role) != [] <==>
              (exists kind: Kind :: role in StructuralGroupsFor(kind)) || role in {"granted-operator", "device-self"}
    ensures role in StructuralGroupsFor(k1) && role in StructuralGroupsFor(k2) ==>
              k1 == k2 || {k1, k2} == {SiteCommon, BuildingCommon}
  {
    assert StructuralGroupsFor(Portfolio)[0] == "property-manager" && StructuralGroupsFor(Apartment)[0] == "resident";
    assert StructuralGroupsFor(Site)[0] == "installer" && StructuralGroupsFor(Site)[1] == "concierge";
    assert StructuralGroupsFor(SiteCommon)[0] == "common-operator";
    assert StructuralGroupsFor(SiteCommon)[1] == "common-device-manager";
  }

  // ---------------------------------------------------------------- the tree and the rule

  /** `a` is `n` parents above `x`. */
  predicate Climbs(t: Tree, a: nat, x: nat, n: nat)
    decreases n
  {
    x in t && if n == 0 then a == x else t[x].parent.Some? && Climbs(t, a, t[x].parent.value, n - 1)
  }

  ghost predicate Covers(t: Tree, a: nat, x: nat) {
    exists n: nat :: Climbs(t, a, x, n)
  }

  datatype Binding = Binding(role: string, group: string, scope: nat)

  /** The bindings created together with the resources: one group per structural role, scoped there. */
  predicate Structural(t: Tree, b: Binding) {
    && b.scope in t && b.role in StructuralGroupsFor(t[b.scope].kind)
    && GroupName(b.role, t[b.scope].kind, t[b.scope].slug) == Ok(b.group)
  }

  function StructuralBindings(t: Tree): Binding -> bool {
    (b: Binding) => Structural(t, b)
  }

  ghost predicate Operates(t: Tree, bound: Binding -> bool, groups: set<string>, d: nat) {
    exists b: Binding :: bound(b) && b.group in groups && GrantsOperate(b.role) && Covers(t, b.scope, d)
  }

  predicate ValidSlugs(t: Tree) {
    forall x | x in t :: t[x].kind == Portfolio || ValidSlug(t[x].slug)
  }

  predicate IsCommon(kind: Kind) { kind == SiteCommon || kind == BuildingCommon }

  /** Where a resource of each kind hangs: devices only under a common area or an apartment. */
  predicate HangsUnder(kind: Kind, parent: Kind) {
    match kind
    case Portfolio => false
    case Site => parent == Portfolio
    case SiteCommon => parent == Site
    case Building => parent == Site
    case BuildingCommon => parent == Building
    case Apartment => parent == Building
    case Device => IsCommon(parent) || parent == Apartment
  }

  predicate Shaped(t: Tree) {
    forall x | x in t ::
      if t[x].parent.None? then t[x].kind == Portfolio
      else t[x].parent.value in t && HangsUnder(t[x].kind, t[t[x].parent.value].kind)
  }

  // ---------------------------------------------------------------- who operates what

  /** The role whose group operates everything under a node of this kind. */
  function OperatorRole(kind: Kind): Option<string> {
    if IsCommon(kind) then Some("common-operator")
    else if kind == Apartment then Some("resident")
    else None
  }

  ghost predicate HoldsOperatorGroup(t: Tree, groups: set<string>, n: nat) {
    && n in t && OperatorRole(t[n].kind).Some?
    && GroupName(OperatorRole(t[n].kind).value, t[n].kind, t[n].slug).Ok?
    && GroupName(OperatorRole(t[n].kind).value, t[n].kind, t[n].slug).value in groups
  }

  lemma OneOperatorRolePerKind(role: string, kind: Kind)
    ensures role in StructuralGroupsFor(kind) && GrantsOperate(role) <==> OperatorRole(kind) == Some(role)
  {
  }

  /** Through structural groups, a subject operates exactly what lies under a node whose operators it is among. */
  lemma OperatesExactly(t: Tree, groups: set<string>, d: nat)
    ensures Operates(t, StructuralBindings(t), groups, d) <==>
              exists n :: HoldsOperatorGroup(t, groups, n) && Covers(t, n, d)
  {
    if Operates(t, StructuralBindings(t), groups, d) {
      var b: Binding :| StructuralBindings(t)(b) && b.group in groups && GrantsOperate(b.role) && Covers(t, b.scope, d);
      OneOperatorRolePerKind(b.role, t[b.scope].kind);
      assert HoldsOperatorGroup(t, groups, b.scope);
    }
    if exists n :: HoldsOperatorGroup(t, groups, n) && Covers(t, n, d) {
      var n :| HoldsOperatorGroup(t, groups, n) && Covers(t, n, d);
      var role := OperatorRole(t[n].kind).value;
      OneOperatorRolePerKind(role, t[n].kind);
      var b := Binding(role, GroupName(role, t[n].kind, t[n].slug).value, n);
      assert StructuralBindings(t)(b);
    }
  }

  predicate IsStaffRole(role: string) {
    || role == "property-manager" || role == "installer" || role == "concierge"
    || role == "common-operator" || role == "common-device-manager"
  }

  ghost predicate StaffGroup(group: string) {
    exists role, kind, slug :: IsStaffRole(role) && GroupName(role, kind, slug) == Ok(group)
  }

  ghost predicate StaffOnly(groups: set<string>) {
    forall g | g in groups :: StaffGroup(g)
  }

  lemma StaffHoldNoResidentGroup(t: Tree, groups: set<string>, n: nat)
    requires StaffOnly(groups) && HoldsOperatorGroup(t, groups, n)
    ensures IsCommon(t[n].kind)
  {
    var role := OperatorRole(t[n].kind).value;
    var g := GroupName(role, t[n].kind, t[n].slug).value;
    assert StaffGroup(g);
    var r, k, s :| IsStaffRole(r) && GroupName(r, k, s) == Ok(g);
    GroupNamesAreInjective(role, t[n].kind, t[n].slug, r, k, s);
  }

  lemma OperatorGroupExists(t: Tree, n: nat)
    requires ValidSlugs(t) && n in t && OperatorRole(t[n].kind).Some?
    ensures GroupName(OperatorRole(t[n].kind).value, t[n].kind, t[n].slug).Ok?
  {
    assert ValidSlug("common-operator") && ValidSlug("resident");
    SlugsCarryNoSeparator("common-operator");
    SlugsCarryNoSeparator("resident");
  }

  ghost predicate SomeStaffOperates(t: Tree, d: nat) {
    exists groups: set<string> :: StaffOnly(groups) && Operates(t, StructuralBindings(t), groups, d)
  }

  ghost predicate UnderACommon(t: Tree, d: nat) {
    exists c :: c in t && IsCommon(t[c].kind) && Covers(t, c, d)
  }

  lemma StaffOperateOnlyUnderCommons(t: Tree, groups: set<string>, d: nat)
    requires StaffOnly(groups) && Operates(t, StructuralBindings(t), groups, d)
    ensures UnderACommon(t, d)
  {
    OperatesExactly(t, groups, d);
    var n :| HoldsOperatorGroup(t, groups, n) && Covers(t, n, d);
    StaffHoldNoResidentGroup(t, groups, n);
  }

  lemma CommonOperatorsAreStaff(kind: Kind, slug: string, group: string)
    requires GroupName("common-operator", kind, slug) == Ok(group)
    ensures StaffOnly({group})
  {
  }

  lemma CommonsAreOperatedByStaff(t: Tree, c: nat, d: nat)
    requires ValidSlugs(t) && c in t && IsCommon(t[c].kind) && Covers(t, c, d)
    ensures SomeStaffOperates(t, d)
  {
    OperatorGroupExists(t, c);
    var groups := {GroupName(OperatorRole(t[c].kind).value, t[c].kind, t[c].slug).value};
    assert HoldsOperatorGroup(t, groups, c);
    OperatesExactly(t, groups, d);
    CommonOperatorsAreStaff(t[c].kind, t[c].slug, GroupName(OperatorRole(t[c].kind).value, t[c].kind, t[c].slug).value);
  }

  /** On any tree at all, what keeps staff from operating a device is that no common area lies above it. */
  lemma StaffOperateExactlyUnderCommons(t: Tree, d: nat)
    requires ValidSlugs(t)
    ensures SomeStaffOperates(t, d) <==> UnderACommon(t, d)
  {
    if SomeStaffOperates(t, d) {
      var groups: set<string> :| StaffOnly(groups) && Operates(t, StructuralBindings(t), groups, d);
      StaffOperateOnlyUnderCommons(t, groups, d);
    }
    if UnderACommon(t, d) {
      var c :| c in t && IsCommon(t[c].kind) && Covers(t, c, d);
      CommonsAreOperatedByStaff(t, c, d);
    }
  }

  /** The kinds that can lie at or above a node of this kind. */
  predicate MayCover(above: Kind, kind: Kind) {
    || above == kind || above == Portfolio
    || (above == Site && kind != Portfolio)
    || (above == Building && (kind == BuildingCommon || kind == Apartment))
    || kind == Device
  }

  lemma {:induction false} CoveringKinds(t: Tree, a: nat, x: nat, n: nat)
    requires Shaped(t) && Climbs(t, a, x, n)
    ensures a in t && MayCover(t[a].kind, t[x].kind)
    decreases n
  {
    if n > 0 {
      CoveringKinds(t, a, t[x].parent.value, n - 1);
    }
  }

  /** On a shaped tree, nothing lies under both an apartment and a common area. */
  lemma ApartmentsAndCommonsAreApart(t: Tree, a: nat, c: nat, d: nat)
    requires Shaped(t) && Covers(t, a, d) && Covers(t, c, d)
    requires a in t && c in t && t[a].kind == Apartment
    ensures !IsCommon(t[c].kind)
  {
    var n: nat :| Climbs(t, a, d, n);
    var m: nat :| Climbs(t, c, d, m);
    CoveringKinds(t, a, d, n);
    CoveringKinds(t, c, d, m);
    if t[d].kind == Device && m > 0 {
      var p := t[d].parent.value;
      assert n > 0;
      CoveringKinds(t, a, p, n - 1);
      CoveringKinds(t, c, p, m - 1);
    }
  }

  /** The headline: staff alone never operate a device in an apartment, whatever groups they hold. */
  lemma NoStaffRoleOperatesAnApartment(t: Tree, groups: set<string>, a: nat, d: nat)
    requires Shaped(t) && ValidSlugs(t) && StaffOnly(groups)
    requires a in t && t[a].kind == Apartment && Covers(t, a, d)
    ensures !Operates(t, StructuralBindings(t), groups, d)
  {
    if Operates(t, StructuralBindings(t), groups, d) {
      StaffOperateOnlyUnderCommons(t, groups, d);
      var c :| c in t && IsCommon(t[c].kind) && Covers(t, c, d);
      ApartmentsAndCommonsAreApart(t, a, c, d);
    }
  }

  // ---------------------------------------------------------------- namesakes and the server's rule

  /** The group operating under this node. */
  function OperatorGroup(t: Tree, n: nat): (group: string)
    requires ValidSlugs(t) && n in t && OperatorRole(t[n].kind).Some?
    ensures GroupName(OperatorRole(t[n].kind).value, t[n].kind, t[n].slug) == Ok(group)
  {
    OperatorGroupExists(t, n);
    GroupName(OperatorRole(t[n].kind).value, t[n].kind, t[n].slug).value
  }

  /** Nodes of one name: of one kind and slug, or portfolios, which carry no slug. */
  predicate Namesakes(t: Tree, n: nat, m: nat) {
    n in t && m in t && t[n].kind == t[m].kind && (t[n].kind == Portfolio || t[n].slug == t[m].slug)
  }

  /** Any of the structural bindings, as far as they could be made. */
  ghost predicate Within(t: Tree, bound: Binding -> bool) {
    forall b {:trigger bound(b)} | bound(b) :: Structural(t, b)
  }

  /** Bindings the server's rule lets stand together. */
  ghost predicate Allowed(rule: ScopeRule, bound: Binding -> bool) {
    rule == OneScope ==>
      forall a, b {:trigger bound(a), bound(b)} | bound(a) && bound(b) && a.role == b.role && a.group == b.group ::
        a.scope == b.scope
  }

  /** The binding that makes this node's operators. */
  function OperatorBinding(t: Tree, n: nat): Binding
    requires ValidSlugs(t) && n in t && OperatorRole(t[n].kind).Some?
  {
    Binding(OperatorRole(t[n].kind).value, OperatorGroup(t, n), n)
  }

  lemma SameGroupIsNamesake(t: Tree, n: nat, b: Binding)
    requires ValidSlugs(t) && n in t && OperatorRole(t[n].kind).Some? && Structural(t, b) && GrantsOperate(b.role)
    ensures b.group == OperatorGroup(t, n) <==> Namesakes(t, n, b.scope)
    ensures b.group == OperatorGroup(t, n) ==> b == OperatorBinding(t, b.scope)
  {
    OneOperatorRolePerKind(b.role, t[b.scope].kind);
    if b.group == OperatorGroup(t, n) {
      GroupNamesAreInjective(OperatorRole(t[n].kind).value, t[n].kind, t[n].slug, b.role, t[b.scope].kind,
                             t[b.scope].slug);
    }
  }

  lemma OperatorBindingIsStructural(t: Tree, n: nat)
    requires ValidSlugs(t) && n in t && OperatorRole(t[n].kind).Some?
    ensures Structural(t, OperatorBinding(t, n)) && GrantsOperate(OperatorBinding(t, n).role)
  {
    OneOperatorRolePerKind(OperatorRole(t[n].kind).value, t[n].kind);
  }

  /**
   A group is named by kind and slug, not by place. Whichever of the structural bindings were made, its
   members operate exactly what lies under a namesake it is bound at.
   */
  lemma AGroupReachesItsNamesakes(t: Tree, bound: Binding -> bool, n: nat, d: nat)
    requires ValidSlugs(t) && n in t && OperatorRole(t[n].kind).Some? && Within(t, bound)
    ensures Operates(t, bound, {OperatorGroup(t, n)}, d)
            <==> exists m :: Namesakes(t, n, m) && bound(OperatorBinding(t, m)) && Covers(t, m, d)
  {
    if Operates(t, bound, {OperatorGroup(t, n)}, d) {
      var b: Binding :| bound(b) && b.group == OperatorGroup(t, n) && GrantsOperate(b.role) && Covers(t, b.scope, d);
      SameGroupIsNamesake(t, n, b);
    }
    if m :| Namesakes(t, n, m) && bound(OperatorBinding(t, m)) && Covers(t, m, d) {
      OperatorBindingIsStructural(t, m);
      SameGroupIsNamesake(t, n, OperatorBinding(t, m));
    }
  }

  /** With all of them made, that is every common area or apartment of that kind and slug, wherever it lies. */
  lemma AGroupReachesEveryNamesake(t: Tree, n: nat, d: nat)
    requires ValidSlugs(t) && n in t && OperatorRole(t[n].kind).Some?
    ensures Operates(t, StructuralBindings(t), {OperatorGroup(t, n)}, d)
            <==> exists m :: Namesakes(t, n, m) && Covers(t, m, d)
  {
    var bound := StructuralBindings(t);
    AGroupReachesItsNamesakes(t, bound, n, d);
    if m :| Namesakes(t, n, m) && Covers(t, m, d) {
      OperatorBindingIsStructural(t, m);
      assert bound(OperatorBinding(t, m));
    }
  }

  /** Where one scope is the rule, a group bound at a node operates under that node and no other. */
  lemma OneScopeReachesOneNode(t: Tree, bound: Binding -> bool, n: nat, d: nat)
    requires ValidSlugs(t) && n in t && OperatorRole(t[n].kind).Some? && Within(t, bound)
    requires Allowed(OneScope, bound) && bound(OperatorBinding(t, n))
    ensures Operates(t, bound, {OperatorGroup(t, n)}, d) <==> Covers(t, n, d)
  {
    AGroupReachesItsNamesakes(t, bound, n, d);
    forall m | Namesakes(t, n, m) && bound(OperatorBinding(t, m)) ensures m == n {
      OperatorBindingIsStructural(t, m);
      SameGroupIsNamesake(t, n, OperatorBinding(t, m));
      assert OperatorBinding(t, m).scope == OperatorBinding(t, n).scope;
    }
  }

  ghost predicate NoNamesakes(t: Tree) {
    forall n, m | Namesakes(t, n, m) && StructuralGroupsFor(t[n].kind) != [] :: n == m
  }

  lemma StructuralGroupsExist(t: Tree, n: nat)
    requires ValidSlugs(t) && n in t && StructuralGroupsFor(t[n].kind) != []
    ensures ValidSlug(StructuralGroupsFor(t[n].kind)[0])
    ensures GroupName(StructuralGroupsFor(t[n].kind)[0], t[n].kind, t[n].slug).Ok?
  {
    SlugsCarryNoSeparator(StructuralGroupsFor(t[n].kind)[0]);
  }

  lemma NamesakesCollide(t: Tree, n: nat, m: nat)
    requires ValidSlugs(t) && Namesakes(t, n, m) && n != m && StructuralGroupsFor(t[n].kind) != []
    ensures !Allowed(OneScope, StructuralBindings(t))
  {
    StructuralGroupsExist(t, n);
    StructuralGroupsExist(t, m);
    var role := StructuralGroupsFor(t[n].kind)[0];
    var group := GroupName(role, t[n].kind, t[n].slug).value;
    var bound := StructuralBindings(t);
    assert bound(Binding(role, group, n)) && bound(Binding(role, group, m));
  }

  /**
   All the structural bindings can be made exactly if the rule allows several scopes or no two nodes
   are namesakes.
   */
  lemma AllCanBeBoundExactly(t: Tree, rule: ScopeRule)
    requires ValidSlugs(t)
    ensures Allowed(rule, StructuralBindings(t)) <==> rule != OneScope || NoNamesakes(t)
  {
    if rule == OneScope && NoNamesakes(t) {
      forall a, b | Structural(t, a) && Structural(t, b) && a.role == b.role && a.group == b.group
        ensures a.scope == b.scope
      {
        GroupNamesAreInjective(a.role, t[a.scope].kind, t[a.scope].slug, b.role, t[b.scope].kind, t[b.scope].slug);
        assert Namesakes(t, a.scope, b.scope);
      }
    }
    if rule == OneScope && !NoNamesakes(t) {
      var n, m :| Namesakes(t, n, m) && StructuralGroupsFor(t[n].kind) != [] && n != m;
      NamesakesCollide(t, n, m);
    }
  }

  // ---------------------------------------------------------------- who stays in place

  /** A group whose members operate only what lies under the node it was made for. */
  ghost predicate StaysInPlace(t: Tree, n: nat)
    requires ValidSlugs(t) && n in t && OperatorRole(t[n].kind).Some?
  {
    forall d :: Operates(t, StructuralBindings(t), {OperatorGroup(t, n)}, d) ==> Covers(t, n, d)
  }

  /** On a shaped tree no common area or apartment lies under another of its own kind. */
  lemma NothingNestsInItsKind(t: Tree, n: nat, m: nat)
    requires Shaped(t) && Covers(t, n, m) && n in t && m in t
    requires OperatorRole(t[m].kind).Some? && t[n].kind == t[m].kind
    ensures n == m
  {
    var k: nat :| Climbs(t, n, m, k);
    if k > 0 {
      CoveringKinds(t, n, t[m].parent.value, k - 1);
    }
  }

  lemma NamesakesAreReached(t: Tree, n: nat, m: nat)
    requires ValidSlugs(t) && Shaped(t) && Namesakes(t, n, m) && OperatorRole(t[n].kind).Some? && StaysInPlace(t, n)
    ensures n == m
  {
    assert Climbs(t, m, m, 0);
    AGroupReachesEveryNamesake(t, n, m);
    NothingNestsInItsKind(t, n, m);
  }

  lemma AloneItStays(t: Tree, n: nat)
    requires ValidSlugs(t) && n in t && OperatorRole(t[n].kind).Some? && forall m | Namesakes(t, n, m) :: m == n
    ensures StaysInPlace(t, n)
  {
    forall d | Operates(t, StructuralBindings(t), {OperatorGroup(t, n)}, d) ensures Covers(t, n, d) {
      AGroupReachesEveryNamesake(t, n, d);
    }
  }

  /**
   Where all the structural bindings stand: every operators' group stays in its place if and only if no
   two common areas of one kind, and no two apartments, share a slug.
   */
  lemma GroupsStayInPlaceExactly(t: Tree)
    requires ValidSlugs(t) && Shaped(t)
    ensures (forall n | n in t && OperatorRole(t[n].kind).Some? :: StaysInPlace(t, n)) <==>
              (forall n, m | Namesakes(t, n, m) && OperatorRole(t[n].kind).Some? :: n == m)
  {
    if forall n | n in t && OperatorRole(t[n].kind).Some? :: StaysInPlace(t, n) {
      forall n, m | Namesakes(t, n, m) && OperatorRole(t[n].kind).Some? ensures n == m {
        NamesakesAreReached(t, n, m);
      }
    }
    if forall n, m | Namesakes(t, n, m) && OperatorRole(t[n].kind).Some? :: n == m {
      forall n | n in t && OperatorRole(t[n].kind).Some? ensures StaysInPlace(t, n) {
        AloneItStays(t, n);
      }
    }
  }
}
