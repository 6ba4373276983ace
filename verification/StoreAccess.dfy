/** The tree builder's store read as a tree of access: what it holds, at every cut of every run, keeps the staff out. */
module StoreAccess {
  import opened Common
  import opened Naming
  import opened Remote
  import opened Tree
  import opened TreeRuns
  import TreeClient
  import Access

  // ---------------------------------------------------------------- reading a store

  /** A resource name read back; a portfolio carries no slug. */
  ghost predicate ReadsAs(name: string, kind: Kind, slug: string) {
    ResourceName(kind, slug) == Ok(name) && (kind == Portfolio ==> slug == "")
  }

  ghost predicate Named(name: string) { exists kind, slug :: ReadsAs(name, kind, slug) }

  lemma ReadsOneWay(name: string, k1: Kind, s1: string, k2: Kind, s2: string)
    requires ReadsAs(name, k1, s1) && ReadsAs(name, k2, s2)
    ensures k1 == k2 && s1 == s2
  {
    ResourceNamesAreInjective(k1, s1, k2, s2);
  }

  ghost function NodeOf(r: Resource): (node: Access.Node)
    requires Named(r.name)
    ensures ReadsAs(r.name, node.kind, node.slug) && node.parent == r.parent
  {
    var kind, slug :| ReadsAs(r.name, kind, slug);
    Access.Node(kind, slug, r.parent)
  }

  ghost predicate AllNamed(s: Store) { forall i | 0 <= i < |s.resources| :: Named(s.resources[i].name) }

  ghost function TreeOf(s: Store): Access.Tree
    requires AllNamed(s)
  {
    map i: nat | i < |s.resources| :: NodeOf(s.resources[i])
  }

  ghost predicate Bears(s: Store, x: Binding, b: Access.Binding) {
    x in s.bindings && Names(s, x.group, b.group) && x.role == b.role && x.scope == b.scope
  }

  ghost function BoundIn(s: Store): Access.Binding -> bool {
    (b: Access.Binding) => exists x :: Bears(s, x, b)
  }

  /** Bindings other than structural ones that a store may also hold, such as a device's own or a grant's. */
  type Spared = Access.Binding -> bool

  ghost predicate WithinBut(t: Access.Tree, bound: Access.Binding -> bool, spare: Spared) {
    forall b {:trigger bound(b)} | bound(b) :: Access.Structural(t, b) || spare(b)
  }

  /** A store that is a well-shaped tree of named nodes and holds structural bindings, and spared ones. */
  ghost predicate Modelled(s: Store, spare: Spared) {
    && AllNamed(s) && Access.Shaped(TreeOf(s)) && WithinBut(TreeOf(s), BoundIn(s), spare)
    && forall x | x in s.bindings :: x.group < |s.groups|
  }

  /** With nothing spared, the store's bindings are structural. */
  lemma NothingSpared(s: Store)
    requires Modelled(s, _ => false)
    ensures Access.Within(TreeOf(s), BoundIn(s))
  {
  }

  /** No spared binding lets a staff group operate. */
  ghost predicate Harmless(spare: Spared) {
    forall b {:trigger spare(b)} | spare(b) && Access.GrantsOperate(b.role) :: !Access.StaffGroup(b.group)
  }

  lemma SlugsAreValid(s: Store)
    requires AllNamed(s)
    ensures Access.ValidSlugs(TreeOf(s))
  {
    forall i | i in TreeOf(s) ensures TreeOf(s)[i].kind == Portfolio || ValidSlug(TreeOf(s)[i].slug) {
      assert ReadsAs(s.resources[i].name, TreeOf(s)[i].kind, TreeOf(s)[i].slug);
    }
  }

  /** In such a store staff alone operate nothing in an apartment. */
  lemma StaffOperateNoApartment(spare: Spared, s: Store, groups: set<string>, a: nat, d: nat)
    requires Modelled(s, spare) && Harmless(spare) && Access.StaffOnly(groups)
    requires a in TreeOf(s) && TreeOf(s)[a].kind == Apartment && Access.Covers(TreeOf(s), a, d)
    ensures !Access.Operates(TreeOf(s), BoundIn(s), groups, d)
  {
    var t, bound := TreeOf(s), BoundIn(s);
    SlugsAreValid(s);
    Access.NoStaffRoleOperatesAnApartment(t, groups, a, d);
    forall b: Access.Binding | bound(b) && b.group in groups && Access.GrantsOperate(b.role)
      ensures Access.StructuralBindings(t)(b)
    {
      assert Access.StaffGroup(b.group);
    }
  }

  // ---------------------------------------------------------------- one node more

  lemma OldNodesStay(s: Store, s': Store)
    requires AllNamed(s) && AllNamed(s') && Extends(s, s')
    ensures forall i | i in TreeOf(s) :: i in TreeOf(s') && TreeOf(s')[i] == TreeOf(s)[i]
  {
    forall i | i in TreeOf(s) ensures i in TreeOf(s') && TreeOf(s')[i] == TreeOf(s)[i] {
      assert s'.resources[i] == s.resources[i];
    }
  }

  lemma SpecReads(kind: Kind, slug: string, spec: Spec) returns (canonical: string)
    requires SpecOf(kind, slug) == Ok(spec)
    ensures ReadsAs(spec.name, kind, canonical) && SpecOf(kind, canonical) == Ok(spec)
  {
    canonical := if kind == Portfolio then "" else slug;
  }

  lemma FittingNodeReads(s: Store, i: nat, spec: Spec, parent: Option<nat>, kind: Kind, slug: string)
    requires AllNamed(s) && NodeFits(s, i, spec.name, parent) && ReadsAs(spec.name, kind, slug)
    ensures i in TreeOf(s) && TreeOf(s)[i] == Access.Node(kind, slug, parent)
  {
    ReadsOneWay(spec.name, kind, slug, TreeOf(s)[i].kind, TreeOf(s)[i].slug);
  }

  lemma HeldsAreStructural(kind: Kind, slug: string, spec: Spec, k: nat)
    requires SpecOf(kind, slug) == Ok(spec) && k < |spec.helds|
    ensures spec.helds[k].role in StructuralGroupsFor(kind)
    ensures GroupName(spec.helds[k].role, kind, slug) == Ok(spec.helds[k].group)
  {
    if StructuralGroupsFor(kind) != [] {
      TreeClient.HeldAtEach(StructuralGroupsFor(kind), spec.name, 0);
      TreeClient.SpecHoldsStructuralGroups(kind, slug, k);
    }
  }

  /** What a node's own bindings are in the tree: structural. */
  lemma RoleBindingIsStructural(s: Store, x: Binding, b: Access.Binding, spec: Spec, parent: Option<nat>,
                                kind: Kind, slug: string)
    requires AllNamed(s) && Distinct(s.groups) && Bears(s, x, b) && SpecOf(kind, slug) == Ok(spec)
    requires ReadsAs(spec.name, kind, slug) && NodeFits(s, x.scope, spec.name, parent) && RoleBinding(s, x, spec.helds)
    ensures Access.Structural(TreeOf(s), b)
  {
    FittingNodeReads(s, x.scope, spec, parent, kind, slug);
    var k :| 0 <= k < |spec.helds| && x.role == spec.helds[k].role && Names(s, x.group, spec.helds[k].group);
    HeldsAreStructural(kind, slug, spec, k);
  }

  /** Where a new node may hang: a portfolio at the top, any other kind under its own. */
  ghost predicate MayHang(s: Store, kind: Kind, parent: Option<nat>)
    requires AllNamed(s)
  {
    if parent.None? then kind == Portfolio
    else parent.value in TreeOf(s) && Access.HangsUnder(kind, TreeOf(s)[parent.value].kind)
  }

  lemma NamesAfterStep(s: Store, s': Store, spec: Spec, parent: Option<nat>, kind: Kind, slug: string)
    requires AllNamed(s) && NodeGrown(s, s', spec, parent) && ReadsAs(spec.name, kind, slug)
    ensures AllNamed(s')
  {
    forall i | 0 <= i < |s'.resources| ensures Named(s'.resources[i].name) {
      if i < |s.resources| {
        assert s'.resources[i] == s.resources[i];
      } else {
        assert NodeFits(s', i, spec.name, parent);
      }
    }
  }

  lemma ShapeAfterStep(s: Store, s': Store, spec: Spec, parent: Option<nat>, kind: Kind, slug: string)
    requires AllNamed(s) && AllNamed(s') && NodeGrown(s, s', spec, parent) && ReadsAs(spec.name, kind, slug)
    requires Access.Shaped(TreeOf(s)) && MayHang(s, kind, parent)
    ensures Access.Shaped(TreeOf(s'))
  {
    var t, t' := TreeOf(s), TreeOf(s');
    OldNodesStay(s, s');
    forall i | i in t'
      ensures if t'[i].parent.None? then t'[i].kind == Portfolio
              else t'[i].parent.value in t' && Access.HangsUnder(t'[i].kind, t'[t'[i].parent.value].kind)
    {
      if i in t {
        assert t'[i] == t[i];
      } else {
        FittingNodeReads(s', i, spec, parent, kind, slug);
      }
    }
  }

  lemma BindingsAfterStep(spare: Spared, s: Store, s': Store, spec: Spec, parent: Option<nat>, kind: Kind, slug: string,
                          x: Binding, b: Access.Binding)
    requires Modelled(s, spare) && AllNamed(s') && Distinct(s'.groups) && NodeGrown(s, s', spec, parent)
    requires SpecOf(kind, slug) == Ok(spec) && ReadsAs(spec.name, kind, slug) && Bears(s', x, b)
    ensures Access.Structural(TreeOf(s'), b) || spare(b)
  {
    if x in s.bindings {
      assert Bears(s, x, b) && BoundIn(s)(b);
      OldNodesStay(s, s');
    } else {
      RoleBindingIsStructural(s', x, b, spec, parent, kind, slug);
    }
  }

  /** One node operation, however it ends, leaves such a store such a store. */
  lemma StepIsModelled(spare: Spared, s: Store, s': Store, spec: Spec, parent: Option<nat>, kind: Kind, slug: string)
    requires Modelled(s, spare) && Sound(s') && NodeGrown(s, s', spec, parent)
    requires SpecOf(kind, slug) == Ok(spec) && ReadsAs(spec.name, kind, slug) && MayHang(s, kind, parent)
    ensures Modelled(s', spare)
  {
    NamesAfterStep(s, s', spec, parent, kind, slug);
    ShapeAfterStep(s, s', spec, parent, kind, slug);
    var t', bound := TreeOf(s'), BoundIn(s');
    forall b | bound(b) ensures Access.Structural(t', b) || spare(b) {
      var x :| Bears(s', x, b);
      BindingsAfterStep(spare, s, s', spec, parent, kind, slug, x, b);
    }
    forall x | x in s'.bindings ensures x.group < |s'.groups| {
      if x !in s.bindings {
        var k :| 0 <= k < |spec.helds| && x.role == spec.helds[k].role && Names(s', x.group, spec.helds[k].group);
      }
    }
  }

  // ---------------------------------------------------------------- a plan, cut anywhere

  predicate Specifies(kind: Kind, slug: string, spec: Spec) { SpecOf(kind, slug) == Ok(spec) }

  ghost predicate OfKind(spec: Spec, kind: Kind) { exists slug :: Specifies(kind, slug, spec) }

  /** The plan's nodes are of these kinds, named by the scheme, and each hangs where its kind may. */
  ghost predicate PlanShaped(plan: seq<Item>, known: nat, kinds: seq<Kind>) {
    && ValidPlan(plan, known) && |kinds| == known + |plan|
    && (forall k | 0 <= k < |plan| :: OfKind(plan[k].spec, kinds[known + k]))
    && forall k | 0 <= k < |plan| ::
        if plan[k].under.None? then kinds[known + k] == Portfolio
        else Access.HangsUnder(kinds[known + k], kinds[plan[k].under.value])
  }

  /** The nodes taken so far are of those kinds. */
  ghost predicate KindsAre(s: Store, ids: seq<nat>, kinds: seq<Kind>) {
    && AllNamed(s) && |ids| <= |kinds|
    && forall i | 0 <= i < |ids| :: ids[i] in TreeOf(s) && TreeOf(s)[ids[i]].kind == kinds[i]
  }

  lemma KindsStay(s: Store, s': Store, ids: seq<nat>, kinds: seq<Kind>)
    requires KindsAre(s, ids, kinds) && Extends(s, s') && AllNamed(s')
    ensures KindsAre(s', ids, kinds)
  {
    OldNodesStay(s, s');
  }

  lemma KindsNext(s: Store, ids: seq<nat>, kinds: seq<Kind>, id: nat, spec: Spec, parent: Option<nat>, slug: string)
    requires KindsAre(s, ids, kinds) && |ids| < |kinds|
    requires NodeFits(s, id, spec.name, parent) && ReadsAs(spec.name, kinds[|ids|], slug)
    ensures KindsAre(s, ids + [id], kinds)
  {
    FittingNodeReads(s, id, spec, parent, kinds[|ids|], slug);
  }

  /** A sound and modelled store, in which the nodes taken so far are of their kinds. */
  ghost predicate StandsIn(s: Store, ids: seq<nat>, kinds: seq<Kind>, spare: Spared) {
    Sound(s) && Modelled(s, spare) && KindsAre(s, ids, kinds)
  }

  lemma ParentMayHang(s: Store, plan: seq<Item>, known: nat, ids: seq<nat>, kinds: seq<Kind>, k: nat)
    requires PlanShaped(plan, known, kinds) && k < |plan| && |ids| == known + k && KindsAre(s, ids, kinds)
    ensures MayHang(s, kinds[known + k], ParentId(plan[k], ids))
  {
  }

  lemma OutcomeIsModelled(spare: Spared, s: Store, node: Step<Store, nat>, spec: Spec, parent: Option<nat>,
                          ids: seq<nat>,
                          kinds: seq<Kind>)
    requires StandsIn(s, ids, kinds, spare) && Outcome(s, node, spec, parent)
    requires |ids| < |kinds| && OfKind(spec, kinds[|ids|]) && MayHang(s, kinds[|ids|], parent)
    ensures StandsIn(node.world.state, ids, kinds, spare)
    ensures node.result.Ok? ==> StandsIn(node.world.state, ids + [node.result.value], kinds, spare)
  {
    var kind := kinds[|ids|];
    var given :| Specifies(kind, given, spec);
    var slug := SpecReads(kind, given, spec);
    StepIsModelled(spare, s, node.world.state, spec, parent, kind, slug);
    KindsStay(s, node.world.state, ids, kinds);
    if node.result.Ok? {
      KindsNext(node.world.state, ids, kinds, node.result.value, spec, parent, slug);
    }
  }

  /** Where a run stands, kept folded up. */
  type Standing = (Store, seq<nat>) -> bool

  ghost function Stands(kinds: seq<Kind>, spare: Spared): Standing { (s: Store, ids: seq<nat>) => StandsIn(s, ids,
                        kinds, spare) }

  ghost predicate CarriesAt(op: NodeOp, w: World<Store>, plan: seq<Item>, known: nat, stands: Standing, ids: seq<nat>)
    requires ValidPlan(plan, known) && known <= |ids| < known + |plan|
  {
    var k := |ids| - known;
    var out := op(w, plan[k].spec, ParentId(plan[k], ids));
    stands(w.state, ids) ==>
      stands(out.world.state, ids) && (out.result.Ok? ==> stands(out.world.state, ids + [out.result.value]))
  }

  lemma NodeIsModelled(spare: Spared, op: NodeOp, w: World<Store>, plan: seq<Item>, known: nat, ids: seq<nat>,
                       kinds: seq<Kind>,
                       stands: Standing)
    requires Builder(op) && PlanShaped(plan, known, kinds) && known <= |ids| < known + |plan|
    requires stands == Stands(kinds, spare)
    ensures CarriesAt(op, w, plan, known, stands, ids)
  {
    var k := |ids| - known;
    if stands(w.state, ids) {
      var spec, parent := plan[k].spec, ParentId(plan[k], ids);
      assert Outcome(w.state, op(w, spec, parent), spec, parent);
      ParentMayHang(w.state, plan, known, ids, kinds, k);
      assert OfKind(plan[k].spec, kinds[known + k]);
      OutcomeIsModelled(spare, w.state, op(w, spec, parent), spec, parent, ids, kinds);
    }
  }

  /** What each operation carries on, with more nodes taken, the walk carries to wherever it ends. */
  lemma {:induction false} WalkCarries(op: NodeOp, w: World<Store>, plan: seq<Item>, known: nat, stands: Standing,
                                       ids: seq<nat>, rest: seq<Item>)
    returns (taken: seq<nat>)
    requires ValidPlan(plan, known) && known <= |ids| <= known + |plan|
    requires forall v: World<Store>, some: seq<nat> | known <= |some| < known + |plan| ::
               CarriesAt(op, v, plan, known, stands, some)
    requires rest == plan[|ids| - known..] && ValidPlan(rest, |ids|) && stands(w.state, ids)
    ensures ids <= taken && stands(Walk(op, w, rest, ids).world.state, taken)
    decreases |rest|
  {
    taken := ids;
    if rest != [] {
      var k := |ids| - known;
      assert rest[0] == plan[k] && rest[1..] == plan[k + 1..];
      assert CarriesAt(op, w, plan, known, stands, ids);
      var node := op(w, plan[k].spec, ParentId(plan[k], ids));
      if node.result.Ok? {
        taken := WalkCarries(op, node.world, plan, known, stands, ids + [node.result.value], rest[1..]);
      }
    }
  }

  lemma FewerStand(spare: Spared, s: Store, ids: seq<nat>, taken: seq<nat>, kinds: seq<Kind>)
    requires StandsIn(s, taken, kinds, spare) && ids <= taken
    ensures StandsIn(s, ids, kinds, spare)
  {
  }

  lemma WalkIsModelled(spare: Spared, op: NodeOp, w: World<Store>, plan: seq<Item>, ids: seq<nat>, kinds: seq<Kind>)
    requires Builder(op) && PlanShaped(plan, |ids|, kinds) && StandsIn(w.state, ids, kinds, spare)
    ensures StandsIn(Walk(op, w, plan, ids).world.state, ids, kinds, spare)
  {
    var stands := Stands(kinds, spare);
    forall v: World<Store>, some: seq<nat> | |ids| <= |some| < |ids| + |plan|
      ensures CarriesAt(op, v, plan, |ids|, stands, some)
    {
      NodeIsModelled(spare, op, v, plan, |ids|, some, kinds, stands);
    }
    var taken := WalkCarries(op, w, plan, |ids|, stands, ids, plan);
    FewerStand(spare, Walk(op, w, plan, ids).world.state, ids, taken, kinds);
  }

  lemma {:induction false} RunsAreModelled(spare: Spared, op: NodeOp, s: Store, runs: seq<Luck>, plan: seq<Item>,
                                           ids: seq<nat>,
                                           kinds: seq<Kind>)
    requires Builder(op) && PlanShaped(plan, |ids|, kinds) && StandsIn(s, ids, kinds, spare)
    ensures StandsIn(AfterRuns(op, s, runs, plan, ids), ids, kinds, spare)
    decreases |runs|
  {
    if runs != [] {
      WalkIsModelled(spare, op, World(s, runs[0].fates, runs[0].next), plan, ids, kinds);
      RunsAreModelled(spare, op, Attempt(op, s, runs[0], plan, ids).world.state, runs[1..], plan, ids, kinds);
    }
  }

  /**
   At every cut of every history of runs of a shaped plan, from a tenant whose bindings were structural
   or spared: the store's bindings still are, and where the spared ones are harmless staff alone operate
   no device in any apartment of it.
   */
  lemma StaffAreKeptOut(spare: Spared, op: NodeOp, s: Store, runs: seq<Luck>, plan: seq<Item>, ids: seq<nat>,
                        kinds: seq<Kind>, groups: set<string>, a: nat, d: nat)
    requires Builder(op) && PlanShaped(plan, |ids|, kinds) && StandsIn(s, ids, kinds, spare)
    requires Harmless(spare) && Access.StaffOnly(groups)
    ensures var now := AfterRuns(op, s, runs, plan, ids);
            && AllNamed(now) && Access.Shaped(TreeOf(now)) && WithinBut(TreeOf(now), BoundIn(now), spare)
            && (a in TreeOf(now) && TreeOf(now)[a].kind == Apartment && Access.Covers(TreeOf(now), a, d) ==>
                  !Access.Operates(TreeOf(now), BoundIn(now), groups, d))
  {
    RunsAreModelled(spare, op, s, runs, plan, ids, kinds);
    var now := AfterRuns(op, s, runs, plan, ids);
    if a in TreeOf(now) && TreeOf(now)[a].kind == Apartment && Access.Covers(TreeOf(now), a, d) {
      StaffOperateNoApartment(spare, now, groups, a, d);
    }
  }

  /**
   The spared bindings that do arise: a device's own role, which operates nothing, and grants, which
   staff groups hold none of.
   */
  ghost predicate OwnOrGranted(b: Access.Binding) {
    || b.role == "device-self"
    || (b.role == "granted-operator" && exists slug :: GroupName("granted-operator", Device, slug) == Ok(b.group))
  }

  lemma OwnAndGrantedAreHarmless()
    ensures Harmless(b => OwnOrGranted(b))
  {
    forall b: Access.Binding | OwnOrGranted(b) && Access.GrantsOperate(b.role) ensures !Access.StaffGroup(b.group) {
      Access.ThreeRolesOperate(b.role);
      if Access.StaffGroup(b.group) {
        var slug :| GroupName("granted-operator", Device, slug) == Ok(b.group);
        var role, kind, other :| Access.IsStaffRole(role) && GroupName(role, kind, other) == Ok(b.group);
        GroupNamesAreInjective("granted-operator", Device, slug, role, kind, other);
      }
    }
  }

  // ---------------------------------------------------------------- who the built store lets in

  /** A finished node's operators operate everything under it. */
  lemma BuiltOperatorsOperate(s: Store, plan: seq<Item>, known: nat, all: seq<nat>, k: nat, kind: Kind, slug: string,
                              l: nat, d: nat)
    requires AllNamed(s) && BranchBuilt(s, plan, known, all) && k < |plan| && SpecOf(kind, slug) == Ok(plan[k].spec)
    requires l < |plan[k].spec.helds| && Access.OperatorRole(kind) == Some(plan[k].spec.helds[l].role)
    requires Access.Covers(TreeOf(s), all[known + k], d)
    ensures Access.Operates(TreeOf(s), BoundIn(s), {plan[k].spec.helds[l].group}, d)
  {
    var held, id := plan[k].spec.helds[l], all[known + k];
    assert NodeBuilt(s, plan[k].spec, ParentId(plan[k], all), id) && Bound(s, held, id);
    var g: nat :| Names(s, g, held.group) && Binding(held.role, g, id) in s.bindings;
    var b := Access.Binding(held.role, held.group, id);
    assert Bears(s, Binding(held.role, g, id), b) && BoundIn(s)(b);
    Access.OneOperatorRolePerKind(held.role, kind);
  }
}
