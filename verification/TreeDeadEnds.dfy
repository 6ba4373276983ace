/**
 Which stores are dead ends for a plan where a group may hold a role at one scope only, over every
 history of runs.
 */
module TreeDeadEnds {
  import opened Common
  import opened Naming
  import opened Remote
  import opened Tree
  import opened TreeRuns
  import opened TreeConvergence
  import opened TreeScopes
  import opened TreePlaces

  // ---------------------------------------------------------------- nodes taken are at their places

  lemma FittedPrefix(s: Store, plan: seq<Item>, known: nat, before: seq<nat>, ids: seq<nat>)
    requires Fitted(s, plan, known, ids) && known <= |before| && before <= ids
    ensures Fitted(s, plan, known, before)
  {
    forall k | 0 <= k < |before| - known
      ensures NodeFits(s, before[known + k], plan[k].spec.name, ParentId(plan[k], before))
    {
      assert ParentId(plan[k], before) == ParentId(plan[k], ids) && before[known + k] == ids[known + k];
    }
  }

  lemma {:induction false} FittedIsAligned(s0: Store, s: Store, plan: seq<Item>, known: nat, places: seq<Place>,
                                           ids: seq<nat>)
    requires Located(s0, plan, known, places) && Linked(s0) && Sound(s) && Extends(s0, s) && Fitted(s, plan, known, ids)
    requires forall j | 0 <= j < known :: places[j] == Old(ids[j]) && ids[j] < |s0.resources|
    ensures Aligned(|s0.resources|, ids, places)
    decreases |ids|
  {
    if |ids| > known {
      var k, before := |ids| - 1 - known, ids[..|ids| - 1];
      FittedPrefix(s, plan, known, before, ids);
      FittedIsAligned(s0, s, plan, known, places, before);
      assert ParentId(plan[k], before) == ParentId(plan[k], ids);
      assert NodeFits(s, ids[known + k], plan[k].spec.name, ParentId(plan[k], ids));
      NextIsAligned(s0, s, plan, known, places, before, ids[known + k]);
      assert before + [ids[known + k]] == ids;
    }
  }

  /** The store decides which node is next: two runs over it take the same ones. */
  lemma {:induction false} FittedAgree(s: Store, plan: seq<Item>, known: nat, a: seq<nat>, b: seq<nat>, n: nat)
    requires NoTwins(s.resources) && Fitted(s, plan, known, a) && Fitted(s, plan, known, b)
    requires known <= n <= |a| && n <= |b| && a[..known] == b[..known]
    ensures a[..n] == b[..n]
  {
    if n > known {
      FittedAgree(s, plan, known, a, b, n - 1);
      var k := n - 1 - known;
      assert a[..n] == a[..n - 1] + [a[known + k]] && b[..n] == b[..n - 1] + [b[known + k]];
      assert forall i | 0 <= i < n - 1 :: a[i] == a[..n - 1][i] && b[i] == b[..n - 1][i];
      assert ParentId(plan[k], a) == ParentId(plan[k], b);
      OneNodeFits(s, a[known + k], b[known + k], plan[k].spec.name, ParentId(plan[k], a));
    }
  }

  // ---------------------------------------------------------------- what runs have bound

  /** The binding is item `k`'s, at the node the item has: `ids` are the nodes up to it. */
  ghost predicate Taken(s: Store, plan: seq<Item>, given: seq<nat>, b: Binding, ids: seq<nat>, k: nat) {
    && k < |plan| && |ids| == |given| + k + 1 && given <= ids && Fitted(s, plan, |given|, ids)
    && b.scope == ids[|given| + k] && RoleBinding(s, b, plan[k].spec.helds)
  }

  ghost predicate Planned(s: Store, plan: seq<Item>, given: seq<nat>, b: Binding) {
    exists ids: seq<nat>, k: nat :: Taken(s, plan, given, b, ids, k)
  }

  /** Every binding that was not there at first is the plan's. */
  ghost predicate Footed(s0: Store, s: Store, plan: seq<Item>, given: seq<nat>) {
    forall b | b in s.bindings && b !in s0.bindings :: Planned(s, plan, given, b)
  }

  lemma PlannedLater(s: Store, s': Store, plan: seq<Item>, given: seq<nat>, b: Binding)
    requires Extends(s, s') && Planned(s, plan, given, b)
    ensures Planned(s', plan, given, b)
  {
    var ids: seq<nat>, k: nat :| Taken(s, plan, given, b, ids, k);
    FittedLater(s, s', plan, |given|, ids, ids);
    RoleBindingStays(s, s', b, plan[k].spec.helds, plan[k].spec.helds);
    assert Taken(s', plan, given, b, ids, k);
  }

  lemma FittedNext(s: Store, s': Store, plan: seq<Item>, known: nat, ids: seq<nat>, id: nat)
    requires Fitted(s, plan, known, ids) && |ids| < known + |plan| && Extends(s, s')
    requires NodeFits(s', id, plan[|ids| - known].spec.name, ParentId(plan[|ids| - known], ids))
    ensures Fitted(s', plan, known, ids + [id])
  {
    var k, ids' := |ids| - known, ids + [id];
    FittedLater(s, s', plan, known, ids, ids');
    assert ParentId(plan[k], ids') == ParentId(plan[k], ids);
  }

  lemma StepIsFooted(s0: Store, s: Store, s': Store, plan: seq<Item>, given: seq<nat>, ids: seq<nat>)
    requires given <= ids && Fitted(s, plan, |given|, ids) && |ids| < |given| + |plan| && Footed(s0, s, plan, given)
    requires NodeGrown(s, s', plan[|ids| - |given|].spec, ParentId(plan[|ids| - |given|], ids))
    ensures Footed(s0, s', plan, given)
  {
    var k := |ids| - |given|;
    forall b | b in s'.bindings && b !in s0.bindings ensures Planned(s', plan, given, b) {
      if b in s.bindings {
        PlannedLater(s, s', plan, given, b);
      } else {
        FittedNext(s, s', plan, |given|, ids, b.scope);
        assert Taken(s', plan, given, b, ids + [b.scope], k);
      }
    }
  }

  ghost predicate StaysIndexed(s: Store, s': Store) {
    s.setting.scopes == OneScope && Distinct(s.groups) && Indexed(s) ==> Indexed(s')
  }

  /** An operation that keeps the server's index. */
  ghost predicate Indexer(op: NodeOp) {
    forall w: World<Store>, spec, parent :: StaysIndexed(w.state, op(w, spec, parent).world.state)
  }

  /** What a store keeps through every run from `s0`, interrupted or not. */
  ghost predicate Grown(s0: Store, s: Store, plan: seq<Item>, given: seq<nat>) {
    && Sound(s) && Extends(s0, s) && Footed(s0, s, plan, given)
    && (s0.setting.scopes == OneScope ==> Indexed(s))
  }

  lemma StepGrows(s0: Store, s: Store, out: Step<Store, nat>, plan: seq<Item>, given: seq<nat>, ids: seq<nat>)
    requires given <= ids && Fitted(s, plan, |given|, ids) && |ids| < |given| + |plan| && Grown(s0, s, plan, given)
    requires Outcome(s, out, plan[|ids| - |given|].spec, ParentId(plan[|ids| - |given|], ids))
    requires StaysIndexed(s, out.world.state)
    ensures Grown(s0, out.world.state, plan, given)
    ensures out.result.Ok? ==> Fitted(out.world.state, plan, |given|, ids + [out.result.value])
  {
    StepIsFooted(s0, s, out.world.state, plan, given, ids);
    if out.result.Ok? {
      FittedNext(s, out.world.state, plan, |given|, ids, out.result.value);
    }
  }

  lemma {:induction false} WalkGrows(op: NodeOp, s0: Store, w: World<Store>, plan: seq<Item>, given: seq<nat>,
                                     ids: seq<nat>, rest: seq<Item>)
    requires Builder(op) && Indexer(op) && Grown(s0, w.state, plan, given)
    requires given <= ids && Fitted(w.state, plan, |given|, ids)
    requires rest == plan[|ids| - |given|..] && ValidPlan(rest, |ids|)
    ensures Grown(s0, Walk(op, w, rest, ids).world.state, plan, given)
    decreases |rest|
  {
    if rest != [] {
      var k := |ids| - |given|;
      assert rest[0] == plan[k] && rest[1..] == plan[k + 1..];
      var node := op(w, plan[k].spec, ParentId(plan[k], ids));
      assert Outcome(w.state, node, plan[k].spec, ParentId(plan[k], ids)) && StaysIndexed(w.state, node.world.state);
      StepGrows(s0, w.state, node, plan, given, ids);
      if node.result.Ok? {
        WalkGrows(op, s0, node.world, plan, given, ids + [node.result.value], rest[1..]);
      }
    }
  }

  lemma {:induction false} RunsGrow(op: NodeOp, s0: Store, s: Store, runs: seq<Luck>, plan: seq<Item>, given: seq<nat>)
    requires Builder(op) && Indexer(op) && Grown(s0, s, plan, given) && ValidPlan(plan, |given|)
    ensures Grown(s0, AfterRuns(op, s, runs, plan, given), plan, given)
    decreases |runs|
  {
    if runs != [] {
      WalkGrows(op, s0, World(s, runs[0].fates, runs[0].next), plan, given, given, plan);
      RunsGrow(op, s0, Attempt(op, s, runs[0], plan, given).world.state, runs[1..], plan, given);
    }
  }

  // ---------------------------------------------------------------- the server's index is kept

  lemma BindStaysIndexed(w: World<Store>, binding: Binding)
    requires w.state.setting.scopes == OneScope && Indexed(w.state) && binding.group < |w.state.groups|
    ensures Indexed(Bind(w, binding).world.state)
  {
  }

  lemma GroupBindingStaysIndexed(w: World<Store>, held: Held, id: nat)
    requires w.state.setting.scopes == OneScope && Distinct(w.state.groups) && Indexed(w.state)
    ensures Indexed(EnsureGroupBinding(w, held, id).world.state)
  {
    ResolveGroupGrows(w, held.group);
    var group := ResolveGroup(w, held.group);
    if group.result.Ok? {
      BindStaysIndexed(Read(group.world).world, Binding(held.role, group.result.value, id));
    }
  }

  lemma {:induction false} GroupsStayIndexed(w: World<Store>, helds: seq<Held>, id: nat)
    requires w.state.setting.scopes == OneScope && Distinct(w.state.groups) && Indexed(w.state)
    ensures Indexed(EnsureGroups(w, helds, id).world.state)
    decreases |helds|
  {
    if helds != [] {
      GroupBindingStaysIndexed(w, helds[0], id);
      GroupBindingGrows(w, helds[0], id);
      var first := EnsureGroupBinding(w, helds[0], id);
      if first.result.Ok? {
        GroupsStayIndexed(first.world, helds[1..], id);
      }
    }
  }

  lemma EnsureResourceIndexes()
    ensures Indexer(EnsureResource)
  {
    forall w: World<Store>, spec, parent ensures StaysIndexed(w.state, EnsureResource(w, spec, parent).world.state) {
      var node := ResolveOrCreate(w, spec, parent);
      if w.state.setting.scopes == OneScope && Distinct(w.state.groups) && Indexed(w.state) && node.result.Ok? {
        GroupsStayIndexed(node.world, spec.helds, node.result.value);
      }
    }
  }

  // ---------------------------------------------------------------- a finished branch was free

  lemma HeldByOne(s: Store, b: Binding, held: Held, id: nat)
    requires Distinct(s.groups) && Indexed(s) && Bound(s, held, id) && b in s.bindings && HeldBy(s, b, held)
    ensures b.scope == id
  {
    var g: nat :| Names(s, g, held.group) && Binding(held.role, g, id) in s.bindings;
    assert SameHolder(b, Binding(held.role, g, id));
  }

  lemma BoundToOne(s: Store, held: Held, i: nat, j: nat)
    requires Distinct(s.groups) && Indexed(s) && Bound(s, held, i) && Bound(s, held, j)
    ensures i == j
  {
    var g: nat :| Names(s, g, held.group) && Binding(held.role, g, i) in s.bindings;
    HeldByOne(s, Binding(held.role, g, i), held, j);
  }

  lemma BuiltIsFitted(s: Store, plan: seq<Item>, known: nat, all: seq<nat>)
    requires BranchBuilt(s, plan, known, all)
    ensures Fitted(s, plan, known, all)
  {
  }

  lemma BuiltHolds(s: Store, plan: seq<Item>, known: nat, all: seq<nat>, k: nat, held: Held)
    requires BranchBuilt(s, plan, known, all) && k < |plan| && held in plan[k].spec.helds
    ensures Bound(s, held, all[known + k])
  {
    var l :| 0 <= l < |plan[k].spec.helds| && plan[k].spec.helds[l] == held;
    assert NodeBuilt(s, plan[k].spec, ParentId(plan[k], all), all[known + k]);
  }

  /** Where the branch stands complete, nothing stood in its way. */
  lemma BuiltWasFree(s0: Store, final: Store, plan: seq<Item>, known: nat, places: seq<Place>, all: seq<nat>)
    requires BranchBuilt(final, plan, known, all) && Distinct(final.groups) && Indexed(final) && Extends(s0, final)
    requires |places| == known + |plan| && Aligned(|s0.resources|, all, places) && Linked(s0)
    ensures PlanFree(s0, plan, known, places)
  {
    forall k: nat | k < |plan| ensures ItemFree(s0, plan, known, places, k) {
      forall b, held | b in s0.bindings && held in plan[k].spec.helds && HeldBy(s0, b, held)
        ensures places[known + k] == Old(b.scope)
      {
        BuiltHolds(final, plan, known, all, k, held);
        HeldByOne(final, b, held, all[known + k]);
        assert IsAt(|s0.resources|, all[known + k], places[known + k]);
      }
      forall j, held | 0 <= j < k && held in plan[j].spec.helds && held in plan[k].spec.helds
        ensures places[known + k] == places[known + j]
      {
        BuiltHolds(final, plan, known, all, k, held);
        BuiltHolds(final, plan, known, all, j, held);
        BoundToOne(final, held, all[known + j], all[known + k]);
      }
    }
  }

  lemma CompletedWasFree(s0: Store, final: Store, plan: seq<Item>, given: seq<nat>, places: seq<Place>, all: seq<nat>)
    requires Located(s0, plan, |given|, places) && Linked(s0) && Grown(s0, final, plan, given)
    requires s0.setting.scopes == OneScope && BranchBuilt(final, plan, |given|, all) && given <= all
    requires forall i | 0 <= i < |given| :: places[i] == Old(given[i]) && given[i] < |s0.resources|
    ensures PlanFree(s0, plan, |given|, places)
  {
    BuiltIsFitted(final, plan, |given|, all);
    FittedIsAligned(s0, final, plan, |given|, places, all);
    BuiltWasFree(s0, final, plan, |given|, places, all);
  }

  // ---------------------------------------------------------------- a free plan completes

  /** A binding made for one item does not stand in another's way. */
  lemma PlannedIsNotInTheWay(s0: Store, s: Store, plan: seq<Item>, given: seq<nat>, places: seq<Place>, b: Binding,
                             theirs: seq<nat>, j: nat, ids: seq<nat>, k: nat, held: Held)
    requires Located(s0, plan, |given|, places) && Linked(s0) && Sound(s) && Extends(s0, s)
    requires forall i | 0 <= i < |given| :: places[i] == Old(given[i]) && given[i] < |s0.resources|
    requires PlanFree(s0, plan, |given|, places) && Taken(s, plan, given, b, theirs, j)
    requires given <= ids && Fitted(s, plan, |given|, ids) && |ids| == |given| + k + 1 && k < |plan|
    requires held in plan[j].spec.helds && held in plan[k].spec.helds
    ensures b.scope == ids[|given| + k]
  {
    var known := |given|;
    FittedIsAligned(s0, s, plan, known, places, ids);
    FittedIsAligned(s0, s, plan, known, places, theirs);
    assert ItemFree(s0, plan, known, places, j) && ItemFree(s0, plan, known, places, k);
    assert places[known + j] == places[known + k];
    if j <= k {
      FittedAgree(s, plan, known, theirs, ids, known + j + 1);
      assert theirs[..known + j + 1][known + j] == ids[..known + j + 1][known + j];
    } else {
      FittedAgree(s, plan, known, theirs, ids, known + k + 1);
      assert theirs[..known + k + 1][known + k] == ids[..known + k + 1][known + k];
    }
  }

  lemma OldIsNotInTheWay(s0: Store, s: Store, plan: seq<Item>, known: nat, places: seq<Place>, b: Binding,
                         ids: seq<nat>, k: nat, held: Held)
    requires |places| == known + |plan| && k < |plan| && PlanFree(s0, plan, known, places) && Extends(s0, s)
    requires |ids| == known + k + 1 && Aligned(|s0.resources|, ids, places)
    requires b in s0.bindings && b.group < |s0.groups| && held in plan[k].spec.helds && HeldBy(s, b, held)
    ensures b.scope == ids[known + k]
  {
    assert HeldBy(s0, b, held) && ItemFree(s0, plan, known, places, k);
    assert IsAt(|s0.resources|, ids[known + k], places[known + k]);
  }

  lemma FreeAtNext(s0: Store, s: Store, noded: Store, plan: seq<Item>, given: seq<nat>, places: seq<Place>,
                   ids: seq<nat>, k: nat)
    requires Located(s0, plan, |given|, places) && Linked(s0) && Indexed(s0) && Grown(s0, s, plan, given)
    requires forall i | 0 <= i < |given| :: places[i] == Old(given[i]) && given[i] < |s0.resources|
    requires PlanFree(s0, plan, |given|, places) && Sound(noded) && Extends(s, noded)
    requires given <= ids && Fitted(noded, plan, |given|, ids) && |ids| == |given| + k + 1 && k < |plan|
    ensures SpecFree(s, plan[k].spec.helds, ids[|given| + k])
  {
    var helds := plan[k].spec.helds;
    forall l, b | 0 <= l < |helds| && b in s.bindings && HeldBy(s, b, helds[l]) ensures b.scope == ids[|given| + k] {
      assert helds[l] in helds;
      if b in s0.bindings {
        FittedIsAligned(s0, noded, plan, |given|, places, ids);
        OldIsNotInTheWay(s0, s, plan, |given|, places, b, ids, k, helds[l]);
      } else {
        PlannedLater(s, noded, plan, given, b);
        var theirs: seq<nat>, j: nat :| Taken(noded, plan, given, b, theirs, j);
        var m :| 0 <= m < |plan[j].spec.helds| && b.role == plan[j].spec.helds[m].role &&
          Names(noded, b.group, plan[j].spec.helds[m].group);
        assert plan[j].spec.helds[m] == helds[l];
        PlannedIsNotInTheWay(s0, noded, plan, given, places, b, theirs, j, ids, k, helds[l]);
      }
    }
  }

  ghost predicate AllRolesExist(s: Store, plan: seq<Item>) {
    forall k | 0 <= k < |plan| :: RolesExist(s, plan[k].spec)
  }

  /** Where a run over a free plan may stand, kept folded up. */
  type Standing = (Store, seq<nat>) -> bool

  ghost predicate StandsIn(s0: Store, s: Store, plan: seq<Item>, given: seq<nat>, ids: seq<nat>) {
    && Grown(s0, s, plan, given) && given <= ids && Fitted(s, plan, |given|, ids)
    && AllRolesExist(s, plan) && s.setting.scopes == OneScope
  }

  ghost predicate GoesOn(op: NodeOp, w: World<Store>, plan: seq<Item>, known: nat, stands: Standing, ids: seq<nat>,
                         n: nat)
    requires ValidPlan(plan, known) && known <= |ids| < known + |plan|
  {
    var k := |ids| - known;
    var out := op(w, plan[k].spec, ParentId(plan[k], ids));
    stands(w.state, ids) && Clear(w.fates, 2 + 5 * |plan[k].spec.helds| + n) ==>
      && out.result.Ok? && stands(out.world.state, ids + [out.result.value]) && Clear(out.world.fates, n)
  }

  ghost function Stands(s0: Store, plan: seq<Item>, given: seq<nat>): Standing {
    (s: Store, ids: seq<nat>) => StandsIn(s0, s, plan, given, ids)
  }

  lemma NextIsAnswered(s0: Store, w: World<Store>, plan: seq<Item>, given: seq<nat>, places: seq<Place>, ids: seq<nat>,
                       k: nat, spec: Spec, parent: Option<nat>, n: nat)
    requires ValidPlan(plan, |given|) && k < |plan| && |ids| == |given| + k
    requires spec == plan[k].spec && parent == ParentId(plan[k], ids)
    requires Located(s0, plan, |given|, places) && Linked(s0) && Indexed(s0) && PlanFree(s0, plan, |given|, places)
    requires forall i | 0 <= i < |given| :: places[i] == Old(given[i]) && given[i] < |s0.resources|
    requires StandsIn(s0, w.state, plan, given, ids) && Clear(w.fates, 2 + 5 * |spec.helds| + n)
    ensures var out := EnsureResource(w, spec, parent);
            out.result.Ok? && Clear(out.world.fates, n)
  {
    var id, noded := NodeOf(w.state, spec.name, parent), Noded(w, spec, parent);
    EnsureResourceDecides(w, spec, parent, n);
    FittedNext(w.state, noded, plan, |given|, ids, id);
    FreeAtNext(s0, w.state, noded, plan, given, places, ids + [id], k);
    assert (ids + [id])[|given| + k] == id;
  }

  lemma NextStands(s0: Store, s: Store, out: Step<Store, nat>, plan: seq<Item>, given: seq<nat>, ids: seq<nat>, k: nat)
    requires ValidPlan(plan, |given|) && k < |plan| && |ids| == |given| + k && StandsIn(s0, s, plan, given, ids)
    requires Outcome(s, out, plan[k].spec, ParentId(plan[k], ids)) && StaysIndexed(s, out.world.state)
    ensures out.result.Ok? ==> StandsIn(s0, out.world.state, plan, given, ids + [out.result.value])
  {
    StepGrows(s0, s, out, plan, given, ids);
  }

  lemma NextGoesOn(s0: Store, w: World<Store>, plan: seq<Item>, given: seq<nat>, places: seq<Place>, ids: seq<nat>,
                   n: nat, stands: Standing)
    requires Located(s0, plan, |given|, places) && Linked(s0) && Indexed(s0) && PlanFree(s0, plan, |given|, places)
    requires forall i | 0 <= i < |given| :: places[i] == Old(given[i]) && given[i] < |s0.resources|
    requires |given| <= |ids| < |given| + |plan| && stands == Stands(s0, plan, given)
    ensures GoesOn(EnsureResource, w, plan, |given|, stands, ids, n)
  {
    var k := |ids| - |given|;
    if stands(w.state, ids) && Clear(w.fates, 2 + 5 * |plan[k].spec.helds| + n) {
      var spec, parent := plan[k].spec, ParentId(plan[k], ids);
      NextIsAnswered(s0, w, plan, given, places, ids, k, spec, parent, n);
      EnsureResourceGrows(w, spec, parent);
      EnsureResourceIndexes();
      assert StaysIndexed(w.state, EnsureResource(w, spec, parent).world.state);
      NextStands(s0, w.state, EnsureResource(w, spec, parent), plan, given, ids, k);
    }
  }

  lemma {:induction false} RestCompletes(op: NodeOp, w: World<Store>, plan: seq<Item>, known: nat, stands: Standing,
                                         ids: seq<nat>, rest: seq<Item>)
    requires ValidPlan(plan, known) && known <= |ids| <= known + |plan|
    requires forall v: World<Store>, taken: seq<nat>, n: nat | known <= |taken| < known + |plan| ::
               GoesOn(op, v, plan, known, stands, taken, n)
    requires rest == plan[|ids| - known..] && ValidPlan(rest, |ids|)
    requires stands(w.state, ids) && Clear(w.fates, Calls(rest))
    ensures Walk(op, w, rest, ids).result.Ok?
    decreases |rest|
  {
    if rest != [] {
      var k := |ids| - known;
      assert rest[0] == plan[k] && rest[1..] == plan[k + 1..];
      assert GoesOn(op, w, plan, known, stands, ids, Calls(rest[1..]));
      var node := op(w, plan[k].spec, ParentId(plan[k], ids));
      RestCompletes(op, node.world, plan, known, stands, ids + [node.result.value], rest[1..]);
    }
  }

  lemma FreePlanCompletes(s0: Store, w: World<Store>, plan: seq<Item>, given: seq<nat>, places: seq<Place>)
    requires Located(s0, plan, |given|, places) && Linked(s0) && Indexed(s0) && PlanFree(s0, plan, |given|, places)
    requires forall i | 0 <= i < |given| :: places[i] == Old(given[i]) && given[i] < |s0.resources|
    requires StandsIn(s0, w.state, plan, given, given) && Clear(w.fates, Calls(plan))
    ensures Walk(EnsureResource, w, plan, given).result.Ok?
  {
    var stands := Stands(s0, plan, given);
    forall v: World<Store>, taken: seq<nat>, n: nat | |given| <= |taken| < |given| + |plan|
      ensures GoesOn(EnsureResource, v, plan, |given|, stands, taken, n)
    {
      NextGoesOn(s0, v, plan, given, places, taken, n, stands);
    }
    RestCompletes(EnsureResource, w, plan, |given|, stands, given, plan);
  }

  // ---------------------------------------------------------------- dead ends

  lemma OneScopeRunsCompleteExactly(s: Store, runs: seq<Luck>, last: Luck, plan: seq<Item>, given: seq<nat>,
                                    places: seq<Place>)
    requires ValidPlan(plan, |given|) && places == Places(s, plan, given)
    requires Sound(s) && Indexed(s) && Linked(s) && s.setting.scopes == OneScope && AllRolesExist(s, plan)
    requires (forall i | 0 <= i < |given| :: given[i] < |s.resources|) && Clear(last.fates, Calls(plan))
    ensures var before := AfterRuns(EnsureResource, s, runs, plan, given);
            Attempt(EnsureResource, before, last, plan, given).result.Ok? <==> PlanFree(s, plan, |given|, places)
  {
    EnsureResourceBuilds();
    EnsureResourceIndexes();
    PlacesAreLocated(s, plan, given);
    var before := AfterRuns(EnsureResource, s, runs, plan, given);
    RunsGrow(EnsureResource, s, s, runs, plan, given);
    var w := World(before, last.fates, last.next);
    if PlanFree(s, plan, |given|, places) {
      FreePlanCompletes(s, w, plan, given, places);
    }
    var done := Attempt(EnsureResource, before, last, plan, given);
    if done.result.Ok? {
      WalkGrows(EnsureResource, s, w, plan, given, given, plan);
      WalkBuilds(EnsureResource, w, plan, given);
      CompletedWasFree(s, done.world.state, plan, given, places, done.result.value);
    }
  }

  /**
   For any rule of the server, after any number of runs cut off anywhere, one whose calls are answered
   completes: always, unless a group may hold its role at one scope only; then exactly if, in the store
   the first run found, no item's groups hold their roles at another node, and no two items at different
   nodes share one. Interruptions make no dead end and open none.
   */
  lemma AnsweredRunsCompleteExactly(s: Store, runs: seq<Luck>, last: Luck, plan: seq<Item>, given: seq<nat>)
    requires Sound(s) && ValidPlan(plan, |given|) && AllRolesExist(s, plan) && Clear(last.fates, Calls(plan))
    requires s.setting.scopes == OneScope ==>
               Indexed(s) && Linked(s) && forall i | 0 <= i < |given| :: given[i] < |s.resources|
    ensures var before := AfterRuns(EnsureResource, s, runs, plan, given);
            Attempt(EnsureResource, before, last, plan, given).result.Ok? <==>
              (s.setting.scopes == OneScope ==> PlanFree(s, plan, |given|, Places(s, plan, given)))
  {
    if s.setting.scopes == OneScope {
      OneScopeRunsCompleteExactly(s, runs, last, plan, given, Places(s, plan, given));
    } else {
      EnsureResourceBuilds();
      RunsExtend(EnsureResource, s, runs, plan, given);
      var before := AfterRuns(EnsureResource, s, runs, plan, given);
      AnsweredRunsComplete(World(before, last.fates, last.next), plan, given);
    }
  }

  /** A tenant with two sites and the catalog's roles for a common area. */
  function TwoSites(scopes: ScopeRule): Store {
    Store([Resource("site:a", None, 0, "site", 0), Resource("site:b", None, 1, "site", 0)], [], {},
          {"common-operator", "common-device-manager"}, {}, Setting(scopes, 0, 0))
  }

  /** A common area of one slug in each. */
  function TwoLobbies(lobby: Spec): (plan: seq<Item>)
    ensures ValidPlan(plan, 2)
  {
    [Item(lobby, Some(0)), Item(lobby, Some(1))]
  }

  lemma LobbySpec(lobby: Spec)
    requires SpecOf(SiteCommon, "lobby") == Ok(lobby)
    ensures lobby.helds != []
    ensures forall k | 0 <= k < |lobby.helds| :: lobby.helds[k].role in TwoSites(OneScope).roles
  {
    var roles := StructuralGroupsFor(SiteCommon);
    assert roles == ["common-operator", "common-device-manager"] && roles[1..] == ["common-device-manager"];
    assert lobby.helds == [Held(roles[0], roles[0] + "@" + lobby.name)] + HeldAt(roles[1..], lobby.name);
  }

  lemma TwoSitesAreSound(scopes: ScopeRule)
    ensures Sound(TwoSites(scopes)) && Indexed(TwoSites(scopes)) && Linked(TwoSites(scopes))
  {
  }

  lemma SomethingMatches(resources: seq<Resource>, parent: Option<nat>, name: string)
    requires Matches(resources, parent, name) != []
    ensures exists i | 0 <= i < |resources| :: Fits(resources[i], parent, name)
  {
    MatchesAreTheFits(resources, parent, name);
    assert Matches(resources, parent, name)[0] in Matches(resources, parent, name);
  }

  lemma FreshUnderSite(s: Store, site: nat, name: string)
    requires s.resources == TwoSites(OneScope).resources
    ensures PlaceOf(s, Some(Old(site)), name) == Fresh(Some(Old(site)), name)
  {
    if Matches(s.resources, Some(site), name) != [] {
      SomethingMatches(s.resources, Some(site), name);
    }
  }

  lemma TakenByAnEarlierItem(s: Store, plan: seq<Item>, known: nat, places: seq<Place>, j: nat, k: nat, held: Held)
    requires |places| == known + |plan| && j < k < |plan| && places[known + j] != places[known + k]
    requires held in plan[j].spec.helds && held in plan[k].spec.helds
    ensures !PlanFree(s, plan, known, places)
  {
    assert !ItemFree(s, plan, known, places, k);
  }

  lemma LobbiesLieApart(s: Store, lobby: Spec, places: seq<Place>)
    requires s.resources == TwoSites(OneScope).resources && Located(s, TwoLobbies(lobby), 2, places)
    requires places[0] == Old(0) && places[1] == Old(1)
    ensures places[2 + 0] != places[2 + 1]
  {
    FreshUnderSite(s, 0, lobby.name);
    FreshUnderSite(s, 1, lobby.name);
    var plan := TwoLobbies(lobby);
    assert places[2 + 0] == PlaceOf(s, Under(plan[0], places), plan[0].spec.name);
    assert places[2 + 1] == PlaceOf(s, Under(plan[1], places), plan[1].spec.name);
  }

  lemma LobbiesAreNotFree(s: Store, lobby: Spec)
    requires lobby.helds != [] && s.resources == TwoSites(OneScope).resources
    ensures !PlanFree(s, TwoLobbies(lobby), 2, Places(s, TwoLobbies(lobby), [0, 1]))
  {
    var plan := TwoLobbies(lobby);
    var places := Places(s, plan, [0, 1]);
    PlacesAreLocated(s, plan, [0, 1]);
    LobbiesLieApart(s, lobby, places);
    assert lobby.helds[0] in plan[0].spec.helds && lobby.helds[0] in plan[1].spec.helds;
    TakenByAnEarlierItem(s, plan, 2, places, 0, 1, lobby.helds[0]);
  }

  /** The dead end by example: the second lobby's groups are taken by the first, unless they may be held twice. */
  lemma TwoLobbiesAreADeadEnd(scopes: ScopeRule, lobby: Spec, runs: seq<Luck>, last: Luck)
    requires SpecOf(SiteCommon, "lobby") == Ok(lobby) && Clear(last.fates, Calls(TwoLobbies(lobby)))
    ensures var before := AfterRuns(EnsureResource, TwoSites(scopes), runs, TwoLobbies(lobby), [0, 1]);
            Attempt(EnsureResource, before, last, TwoLobbies(lobby), [0, 1]).result.Ok? <==> scopes != OneScope
  {
    TwoSitesAreSound(scopes);
    LobbySpec(lobby);
    LobbiesAreNotFree(TwoSites(scopes), lobby);
    AnsweredRunsCompleteExactly(TwoSites(scopes), runs, last, TwoLobbies(lobby), [0, 1]);
  }
}
