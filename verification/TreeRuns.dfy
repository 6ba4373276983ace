/** What interrupted and completed runs of the tree builder leave in the store. */
module TreeRuns {
  import opened Common
  import opened Remote
  import opened Tree

  // ---------------------------------------------------------------- states

  ghost predicate NoTwins(resources: seq<Resource>) {
    forall i, j | 0 <= i < j < |resources| ::
      !(resources[i].parent == resources[j].parent && resources[i].name == resources[j].name)
  }

  /** Group names are unique in a tenant: the server holds an index. */
  ghost predicate Distinct(groups: seq<string>) {
    forall i, j | 0 <= i < j < |groups| :: groups[i] != groups[j]
  }

  ghost predicate Sound(s: Store) { NoTwins(s.resources) && Distinct(s.groups) }

  /** Nothing that was there has changed: ids, names, parents and stable identifiers included. */
  ghost predicate Extends(s: Store, s': Store) {
    s.resources <= s'.resources && s.groups <= s'.groups && s.bindings <= s'.bindings && s.roles == s'.roles
    && s.members == s'.members && s.setting == s'.setting
  }

  ghost predicate NodeFits(s: Store, i: nat, name: string, parent: Option<nat>) {
    i < |s.resources| && Fits(s.resources[i], parent, name)
  }

  ghost predicate Names(s: Store, g: nat, group: string) { g < |s.groups| && s.groups[g] == group }

  ghost predicate RoleGroup(s: Store, g: nat, helds: seq<Held>) {
    exists k | 0 <= k < |helds| :: Names(s, g, helds[k].group)
  }

  ghost predicate RoleBinding(s: Store, b: Binding, helds: seq<Held>) {
    exists k | 0 <= k < |helds| :: b.role == helds[k].role && Names(s, b.group, helds[k].group)
  }

  ghost predicate Bound(s: Store, held: Held, id: nat) {
    exists g: nat :: Names(s, g, held.group) && Binding(held.role, g, id) in s.bindings
  }

  /** The node is there with every one of its role groups bound to it. */
  ghost predicate NodeBuilt(s: Store, spec: Spec, parent: Option<nat>, id: nat) {
    NodeFits(s, id, spec.name, parent) && forall k | 0 <= k < |spec.helds| :: Bound(s, spec.helds[k], id)
  }

  lemma {:induction false} MatchesAreTheFits(resources: seq<Resource>, parent: Option<nat>, name: string)
    ensures forall i: nat ::
              i in Matches(resources, parent, name) <==> i < |resources| && Fits(resources[i], parent, name)
    ensures forall k, l | 0 <= k < l < |Matches(resources, parent, name)| ::
        Matches(resources, parent, name)[k] < Matches(resources, parent, name)[l]
  {
    if resources != [] {
      var n := |resources| - 1;
      MatchesAreTheFits(resources[..n], parent, name);
      var rest := Matches(resources[..n], parent, name);
      assert forall k | 0 <= k < |rest| :: rest[k] in rest;
      assert forall i | 0 <= i < n :: resources[..n][i] == resources[i];
    }
  }

  // ---------------------------------------------------------------- one group binding

  /** Only these groups were added, and only bindings of them scoped to this node. */
  ghost predicate GroupsGrown(s: Store, s': Store, helds: seq<Held>, id: nat) {
    && Extends(s, s') && s.resources == s'.resources
    && (forall g: nat | |s.groups| <= g < |s'.groups| :: RoleGroup(s', g, helds))
    && (forall b | b in s'.bindings && b !in s.bindings :: b.scope == id && RoleBinding(s', b, helds))
  }

  lemma ResolveGroupGrows(w: World<Store>, name: string)
    requires Distinct(w.state.groups)
    ensures var out := ResolveGroup(w, name);
            && out.world.state == w.state.(groups := out.world.state.groups)
            && (out.world.state.groups == w.state.groups
                || (name !in w.state.groups && out.world.state.groups == w.state.groups + [name]))
            && (out.result.Ok? ==> Names(out.world.state, out.result.value, name))
  {
  }

  lemma BindGrows(w: World<Store>, binding: Binding)
    ensures var out := Bind(w, binding);
            && out.world.state == w.state.(bindings := out.world.state.bindings)
            && w.state.bindings <= out.world.state.bindings <= w.state.bindings + {binding}
            && (out.result.Ok? ==> binding in out.world.state.bindings)
  {
  }

  lemma OneGroupGrown(s: Store, s': Store, held: Held, g: nat, id: nat)
    requires s' == s.(groups := s'.groups, bindings := s'.bindings)
    requires s'.groups == s.groups || s'.groups == s.groups + [held.group]
    requires s.bindings <= s'.bindings <= s.bindings + {Binding(held.role, g, id)}
    requires s'.bindings == s.bindings || Names(s', g, held.group)
    ensures GroupsGrown(s, s', [held], id)
  {
    var helds := [held];
    forall h: nat | |s.groups| <= h < |s'.groups| ensures RoleGroup(s', h, helds) {
      assert Names(s', h, helds[0].group);
    }
    forall b | b in s'.bindings && b !in s.bindings ensures b.scope == id && RoleBinding(s', b, helds) {
      assert b == Binding(held.role, g, id) && Names(s', b.group, helds[0].group);
    }
  }

  lemma GroupBindingGrows(w: World<Store>, held: Held, id: nat)
    requires Distinct(w.state.groups)
    ensures var out := EnsureGroupBinding(w, held, id);
            && Distinct(out.world.state.groups)
            && GroupsGrown(w.state, out.world.state, [held], id)
            && (out.result.Ok? ==> Bound(out.world.state, held, id))
  {
    ResolveGroupGrows(w, held.group);
    var group := ResolveGroup(w, held.group);
    var out := EnsureGroupBinding(w, held, id);
    if group.result.Ok? {
      var g := group.result.value;
      BindGrows(Read(group.world).world, Binding(held.role, g, id));
      assert Names(out.world.state, g, held.group);
      OneGroupGrown(w.state, out.world.state, held, g, id);
    } else {
      OneGroupGrown(w.state, out.world.state, held, 0, id);
    }
  }

  lemma RoleGroupStays(s: Store, s': Store, g: nat, helds: seq<Held>, all: seq<Held>)
    requires Extends(s, s') && RoleGroup(s, g, helds) && forall h | h in helds :: h in all
    ensures RoleGroup(s', g, all)
  {
    var k :| 0 <= k < |helds| && Names(s, g, helds[k].group);
    assert helds[k] in all;
    var l :| 0 <= l < |all| && all[l] == helds[k];
    assert Names(s', g, all[l].group);
  }

  lemma RoleBindingStays(s: Store, s': Store, b: Binding, helds: seq<Held>, all: seq<Held>)
    requires Extends(s, s') && RoleBinding(s, b, helds) && forall h | h in helds :: h in all
    ensures RoleBinding(s', b, all)
  {
    var k :| 0 <= k < |helds| && b.role == helds[k].role && Names(s, b.group, helds[k].group);
    assert helds[k] in all;
    var l :| 0 <= l < |all| && all[l] == helds[k];
    assert Names(s', b.group, all[l].group);
  }

  lemma GroupsGrownChain(a: Store, b: Store, c: Store, first: Held, rest: seq<Held>, id: nat)
    requires GroupsGrown(a, b, [first], id) && GroupsGrown(b, c, rest, id)
    ensures GroupsGrown(a, c, [first] + rest, id)
  {
    var helds := [first] + rest;
    forall g: nat | |a.groups| <= g < |c.groups| ensures RoleGroup(c, g, helds) {
      if g < |b.groups| {
        RoleGroupStays(b, c, g, [first], helds);
      } else {
        RoleGroupStays(c, c, g, rest, helds);
      }
    }
    forall x | x in c.bindings && x !in a.bindings ensures x.scope == id && RoleBinding(c, x, helds) {
      if x in b.bindings {
        RoleBindingStays(b, c, x, [first], helds);
      } else {
        RoleBindingStays(c, c, x, rest, helds);
      }
    }
  }

  lemma BoundStays(s: Store, s': Store, held: Held, id: nat)
    requires Extends(s, s') && Bound(s, held, id)
    ensures Bound(s', held, id)
  {
  }

  lemma {:induction false} GroupsGrow(w: World<Store>, helds: seq<Held>, id: nat)
    requires Distinct(w.state.groups)
    ensures var out := EnsureGroups(w, helds, id);
            && Distinct(out.world.state.groups) && GroupsGrown(w.state, out.world.state, helds, id)
            && (out.result.Ok? ==> out.result.value == id)
    ensures EnsureGroups(w, helds, id).result.Ok? ==>
              forall k | 0 <= k < |helds| :: Bound(EnsureGroups(w, helds, id).world.state, helds[k], id)
    decreases |helds|
  {
    if helds != [] {
      GroupBindingGrows(w, helds[0], id);
      var first := EnsureGroupBinding(w, helds[0], id);
      assert helds == [helds[0]] + helds[1..];
      if first.result.Ok? {
        GroupsGrow(first.world, helds[1..], id);
        var out := EnsureGroups(first.world, helds[1..], id);
        GroupsGrownChain(w.state, first.world.state, out.world.state, helds[0], helds[1..], id);
        BoundStays(first.world.state, out.world.state, helds[0], id);
      } else {
        GroupsGrownChain(w.state, first.world.state, first.world.state, helds[0], helds[1..], id);
      }
    }
  }

  // ---------------------------------------------------------------- one resource

  ghost predicate NodeGrown(s: Store, s': Store, spec: Spec, parent: Option<nat>) {
    && Extends(s, s')
    && (forall i: nat | |s.resources| <= i < |s'.resources| :: NodeFits(s', i, spec.name, parent))
    && (forall g: nat | |s.groups| <= g < |s'.groups| :: RoleGroup(s', g, spec.helds))
    && (forall b | b in s'.bindings && b !in s.bindings ::
          NodeFits(s', b.scope, spec.name, parent) && RoleBinding(s', b, spec.helds))
  }

  lemma NothingMatches(resources: seq<Resource>, parent: Option<nat>, name: string, extra: Resource)
    requires NoTwins(resources) && Matches(resources, parent, name) == [] && Fits(extra, parent, name)
    ensures NoTwins(resources + [extra])
  {
    MatchesAreTheFits(resources, parent, name);
    forall i: nat | i < |resources| ensures !Fits(resources[i], parent, name) {
      assert i !in Matches(resources, parent, name);
    }
  }

  lemma ResolveOrCreateGrows(w: World<Store>, spec: Spec, parent: Option<nat>)
    requires Sound(w.state)
    ensures var out := ResolveOrCreate(w, spec, parent);
            && Sound(out.world.state) && Extends(w.state, out.world.state)
            && out.world.state == w.state.(resources := out.world.state.resources)
            && (forall i: nat | |w.state.resources| <= i < |out.world.state.resources| ::
                  NodeFits(out.world.state, i, spec.name, parent))
            && (out.result.Ok? ==> NodeFits(out.world.state, out.result.value, spec.name, parent))
  {
    var found := Matches(w.state.resources, parent, spec.name);
    if found == [] {
      var made := Resource(spec.name, parent, w.next, spec.resourceType, w.state.setting.lands);
      NothingMatches(w.state.resources, parent, spec.name, made);
    } else {
      MatchesAreTheFits(w.state.resources, parent, spec.name);
      assert found[0] in found;
    }
  }

  /** What one node operation did to the store and what it claims. */
  ghost predicate Outcome(s: Store, out: Step<Store, nat>, spec: Spec, parent: Option<nat>) {
    && Sound(out.world.state) && NodeGrown(s, out.world.state, spec, parent)
    && (out.result.Ok? ==> NodeBuilt(out.world.state, spec, parent, out.result.value))
  }

  ghost predicate Builder(op: NodeOp) {
    forall w: World<Store>, spec, parent :: Sound(w.state) ==> Outcome(w.state, op(w, spec, parent), spec, parent)
  }

  lemma EnsureResourceGrows(w: World<Store>, spec: Spec, parent: Option<nat>)
    requires Sound(w.state)
    ensures Outcome(w.state, EnsureResource(w, spec, parent), spec, parent)
  {
    ResolveOrCreateGrows(w, spec, parent);
    var node := ResolveOrCreate(w, spec, parent);
    if node.result.Ok? {
      GroupsGrow(node.world, spec.helds, node.result.value);
    }
  }

  lemma EnsureResourceBuilds()
    ensures Builder(EnsureResource)
  {
    forall w: World<Store>, spec, parent | Sound(w.state)
      ensures Outcome(w.state, EnsureResource(w, spec, parent), spec, parent)
    {
      EnsureResourceGrows(w, spec, parent);
    }
  }

  // ---------------------------------------------------------------- a branch

  /** `all` are the nodes of the plan: the first `known` given, then one for each item. */
  ghost predicate BranchBuilt(s: Store, plan: seq<Item>, known: nat, all: seq<nat>) {
    && ValidPlan(plan, known) && |all| == known + |plan|
    && forall k | 0 <= k < |plan| :: NodeBuilt(s, plan[k].spec, ParentId(plan[k], all), all[known + k])
  }

  ghost predicate GroupOfPlan(s: Store, plan: seq<Item>, g: nat) {
    exists k | 0 <= k < |plan| :: RoleGroup(s, g, plan[k].spec.helds)
  }

  /** One of the bindings the plan calls for: a structural role of an item, scoped to that item's node. */
  ghost predicate Footprint(s: Store, plan: seq<Item>, known: nat, all: seq<nat>, b: Binding) {
    exists k | 0 <= k < |plan| ::
        known + k < |all| && b.scope == all[known + k] && RoleBinding(s, b, plan[k].spec.helds)
  }

  ghost predicate OneOf(all: seq<nat>, known: nat, i: nat) {
    exists k | known <= k < |all| :: all[k] == i
  }

  /** Everything new belongs to the plan, measured against the finished store. */
  ghost predicate Confined(s: Store, s': Store, final: Store, plan: seq<Item>, known: nat, all: seq<nat>) {
    && (forall i: nat | |s.resources| <= i < |s'.resources| :: OneOf(all, known, i))
    && (forall g: nat | |s.groups| <= g < |s'.groups| :: GroupOfPlan(final, plan, g))
    && (forall b | b in s'.bindings && b !in s.bindings :: Footprint(final, plan, known, all, b))
  }

  lemma {:induction false} WalkExtends(op: NodeOp, w: World<Store>, plan: seq<Item>, ids: seq<nat>)
    requires Builder(op) && Sound(w.state) && ValidPlan(plan, |ids|)
    ensures Sound(Walk(op, w, plan, ids).world.state) && Extends(w.state, Walk(op, w, plan, ids).world.state)
    decreases |plan|
  {
    if plan != [] {
      var node := op(w, plan[0].spec, ParentId(plan[0], ids));
      assert Outcome(w.state, node, plan[0].spec, ParentId(plan[0], ids));
      if node.result.Ok? {
        WalkExtends(op, node.world, plan[1..], ids + [node.result.value]);
      }
    }
  }

  lemma BranchGrows(s: Store, final: Store, plan: seq<Item>, ids: seq<nat>, id: nat, all: seq<nat>)
    requires plan != [] && ValidPlan(plan, |ids|) && ids + [id] <= all && Extends(s, final)
    requires NodeBuilt(s, plan[0].spec, ParentId(plan[0], ids), id)
    requires BranchBuilt(final, plan[1..], |ids| + 1, all)
    ensures BranchBuilt(final, plan, |ids|, all)
  {
  }

  /** A run that completes has every node, in the plan's order, with every role group bound to it. */
  lemma {:induction false} WalkBuilds(op: NodeOp, w: World<Store>, plan: seq<Item>, ids: seq<nat>)
    requires Builder(op) && Sound(w.state) && ValidPlan(plan, |ids|) && Walk(op, w, plan, ids).result.Ok?
    ensures ids <= Walk(op, w, plan, ids).result.value
    ensures BranchBuilt(Walk(op, w, plan, ids).world.state, plan, |ids|, Walk(op, w, plan, ids).result.value)
    decreases |plan|
  {
    if plan != [] {
      var node := op(w, plan[0].spec, ParentId(plan[0], ids));
      assert Outcome(w.state, node, plan[0].spec, ParentId(plan[0], ids));
      var ids' := ids + [node.result.value];
      WalkExtends(op, node.world, plan[1..], ids');
      WalkBuilds(op, node.world, plan[1..], ids');
      var out := Walk(op, w, plan, ids);
      BranchGrows(node.world.state, out.world.state, plan, ids, node.result.value, out.result.value);
    }
  }

  // ---------------------------------------------------------------- interrupted runs

  lemma OneNodeFits(s: Store, i: nat, j: nat, name: string, parent: Option<nat>)
    requires NoTwins(s.resources) && NodeFits(s, i, name, parent) && NodeFits(s, j, name, parent)
    ensures i == j
  {
  }

  /** What one step adds is the plan's first node: in the finished store no other node could fit. */
  lemma StepConfined(s: Store, s': Store, final: Store, plan: seq<Item>, known: nat, all: seq<nat>)
    requires Sound(final) && BranchBuilt(final, plan, known, all) && plan != [] && Extends(s', final)
    requires NodeGrown(s, s', plan[0].spec, ParentId(plan[0], all))
    ensures Confined(s, s', final, plan, known, all)
  {
    var spec, parent, id := plan[0].spec, ParentId(plan[0], all), all[known];
    assert NodeBuilt(final, spec, parent, all[known + 0]);
    assert OneOf(all, known, id);
    forall i: nat | NodeFits(s', i, spec.name, parent) ensures i == id {
      OneNodeFits(final, i, id, spec.name, parent);
    }
    forall i: nat | |s.resources| <= i < |s'.resources| ensures OneOf(all, known, i) {
      assert NodeFits(s', i, spec.name, parent);
    }
    forall g: nat | |s.groups| <= g < |s'.groups| ensures GroupOfPlan(final, plan, g) {
      RoleGroupStays(s', final, g, spec.helds, spec.helds);
    }
    forall b | b in s'.bindings && b !in s.bindings ensures Footprint(final, plan, known, all, b) {
      RoleBindingStays(s', final, b, spec.helds, spec.helds);
      assert b.scope == all[known + 0];
    }
  }

  lemma TailGroup(s: Store, plan: seq<Item>, g: nat)
    requires plan != [] && GroupOfPlan(s, plan[1..], g)
    ensures GroupOfPlan(s, plan, g)
  {
  }

  lemma TailFootprint(s: Store, plan: seq<Item>, known: nat, all: seq<nat>, b: Binding)
    requires plan != [] && Footprint(s, plan[1..], known + 1, all, b)
    ensures Footprint(s, plan, known, all, b)
  {
  }

  lemma ConfinedLater(a: Store, b: Store, c: Store, final: Store, plan: seq<Item>, known: nat, all: seq<nat>)
    requires plan != [] && Extends(a, b) && Extends(b, c)
    requires Confined(a, b, final, plan, known, all) && Confined(b, c, final, plan[1..], known + 1, all)
    ensures Confined(a, c, final, plan, known, all)
  {
    forall i: nat | |b.resources| <= i < |c.resources| ensures OneOf(all, known, i) {
      assert OneOf(all, known + 1, i);
    }
    forall g: nat | |b.groups| <= g < |c.groups| ensures GroupOfPlan(final, plan, g) {
      TailGroup(final, plan, g);
    }
    forall x | x in c.bindings && x !in b.bindings ensures Footprint(final, plan, known, all, x) {
      TailFootprint(final, plan, known, all, x);
    }
  }

  lemma BranchTail(s: Store, plan: seq<Item>, known: nat, all: seq<nat>)
    requires plan != [] && BranchBuilt(s, plan, known, all)
    ensures BranchBuilt(s, plan[1..], known + 1, all)
  {
  }

  /** Any run, however it ends, adds only what the finished branch holds, and resolves its nodes. */
  lemma {:induction false} WalkConfined(op: NodeOp, w: World<Store>, plan: seq<Item>, ids: seq<nat>,
                                        final: Store, all: seq<nat>)
    requires Builder(op) && Sound(w.state) && ValidPlan(plan, |ids|)
    requires Sound(final) && BranchBuilt(final, plan, |ids|, all) && ids <= all
    requires Extends(Walk(op, w, plan, ids).world.state, final)
    ensures Confined(w.state, Walk(op, w, plan, ids).world.state, final, plan, |ids|, all)
    ensures Walk(op, w, plan, ids).result.Ok? ==> Walk(op, w, plan, ids).result.value == all
    decreases |plan|
  {
    if plan != [] {
      var spec, parent := plan[0].spec, ParentId(plan[0], ids);
      assert parent == ParentId(plan[0], all);
      var node := op(w, spec, parent);
      assert Outcome(w.state, node, spec, parent);
      if node.result.Err? {
        StepConfined(w.state, node.world.state, final, plan, |ids|, all);
      } else {
        var id, ids' := node.result.value, ids + [node.result.value];
        WalkExtends(op, node.world, plan[1..], ids');
        StepConfined(w.state, node.world.state, final, plan, |ids|, all);
        assert NodeBuilt(final, spec, parent, all[|ids| + 0]);
        OneNodeFits(final, id, all[|ids|], spec.name, parent);
        BranchTail(final, plan, |ids|, all);
        WalkConfined(op, node.world, plan[1..], ids', final, all);
        ConfinedLater(w.state, node.world.state, Walk(op, w, plan, ids).world.state, final, plan, |ids|, all);
      }
    }
  }

  lemma {:induction false} RunsExtend(op: NodeOp, s: Store, runs: seq<Luck>, plan: seq<Item>, ids: seq<nat>)
    requires Builder(op) && Sound(s) && ValidPlan(plan, |ids|)
    ensures Sound(AfterRuns(op, s, runs, plan, ids)) && Extends(s, AfterRuns(op, s, runs, plan, ids))
    decreases |runs|
  {
    if runs != [] {
      WalkExtends(op, World(s, runs[0].fates, runs[0].next), plan, ids);
      RunsExtend(op, Attempt(op, s, runs[0], plan, ids).world.state, runs[1..], plan, ids);
    }
  }

  lemma ConfinedChain(a: Store, b: Store, c: Store, final: Store, plan: seq<Item>, known: nat, all: seq<nat>)
    requires Extends(a, b) && Extends(b, c)
    requires Confined(a, b, final, plan, known, all) && Confined(b, c, final, plan, known, all)
    ensures Confined(a, c, final, plan, known, all)
  {
  }

  lemma {:induction false} RunsConfined(op: NodeOp, s: Store, runs: seq<Luck>, plan: seq<Item>, ids: seq<nat>,
                                        final: Store, all: seq<nat>)
    requires Builder(op) && Sound(s) && ValidPlan(plan, |ids|)
    requires Sound(final) && BranchBuilt(final, plan, |ids|, all) && ids <= all
    requires Extends(AfterRuns(op, s, runs, plan, ids), final)
    ensures Confined(s, AfterRuns(op, s, runs, plan, ids), final, plan, |ids|, all)
    decreases |runs|
  {
    if runs != [] {
      var w := World(s, runs[0].fates, runs[0].next);
      var s' := Walk(op, w, plan, ids).world.state;
      WalkExtends(op, w, plan, ids);
      RunsExtend(op, s', runs[1..], plan, ids);
      WalkConfined(op, w, plan, ids, final, all);
      RunsConfined(op, s', runs[1..], plan, ids, final, all);
      ConfinedChain(s, s', AfterRuns(op, s, runs, plan, ids), final, plan, |ids|, all);
    }
  }
}
