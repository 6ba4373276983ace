/** Convergence, idempotence and completion of the tree builder, over every history of cut-off runs. */
module TreeConvergence {
  import opened Common
  import opened Remote
  import opened Tree
  import opened TreeRuns

  // ---------------------------------------------------------------- convergence

  ghost predicate PlanNamesGroup(plan: seq<Item>, group: string) {
    exists k, l :: 0 <= k < |plan| && 0 <= l < |plan[k].spec.helds| && plan[k].spec.helds[l].group == group
  }

  /**
   The finished store against the one the first run found: everything old is unchanged, each node of
   the plan exists exactly once, and nothing but the plan's nodes, groups and bindings was added.
   */
  ghost predicate Converged(s: Store, final: Store, plan: seq<Item>, known: nat, all: seq<nat>) {
    && ValidPlan(plan, known) && |all| == known + |plan|
    && Extends(s, final)
    && (forall k, i: nat | 0 <= k < |plan| ::
          NodeFits(final, i, plan[k].spec.name, ParentId(plan[k], all)) <==> i == all[known + k])
    && (forall i: nat | |s.resources| <= i < |final.resources| :: OneOf(all, known, i))
    && (forall name :: name in final.groups <==> name in s.groups || PlanNamesGroup(plan, name))
    && (forall b :: b in final.bindings <==> b in s.bindings || Footprint(final, plan, known, all, b))
  }

  lemma BuiltHasFootprint(s: Store, plan: seq<Item>, known: nat, all: seq<nat>, b: Binding)
    requires Sound(s) && BranchBuilt(s, plan, known, all) && Footprint(s, plan, known, all, b)
    ensures b in s.bindings
  {
  }

  lemma BuiltHasGroups(s: Store, plan: seq<Item>, known: nat, all: seq<nat>, group: string)
    requires BranchBuilt(s, plan, known, all) && PlanNamesGroup(plan, group)
    ensures group in s.groups
  {
  }

  lemma NewGroupIsThePlans(s: Store, plan: seq<Item>, g: nat)
    requires g < |s.groups| && GroupOfPlan(s, plan, g)
    ensures PlanNamesGroup(plan, s.groups[g])
  {
  }

  lemma BuiltNodesAreTheFits(s: Store, plan: seq<Item>, known: nat, all: seq<nat>, k: nat, i: nat)
    requires Sound(s) && BranchBuilt(s, plan, known, all) && k < |plan|
    ensures NodeFits(s, i, plan[k].spec.name, ParentId(plan[k], all)) <==> i == all[known + k]
  {
  }

  lemma BuiltAndConfinedConverge(s: Store, final: Store, plan: seq<Item>, known: nat, all: seq<nat>)
    requires Sound(final) && Extends(s, final) && BranchBuilt(final, plan, known, all)
    requires Confined(s, final, final, plan, known, all)
    ensures Converged(s, final, plan, known, all)
  {
    forall k, i: nat | 0 <= k < |plan|
      ensures NodeFits(final, i, plan[k].spec.name, ParentId(plan[k], all)) <==> i == all[known + k]
    {
      BuiltNodesAreTheFits(final, plan, known, all, k, i);
    }
    forall name ensures name in final.groups <==> name in s.groups || PlanNamesGroup(plan, name) {
      if name in final.groups && name !in s.groups {
        var g :| 0 <= g < |final.groups| && final.groups[g] == name;
        NewGroupIsThePlans(final, plan, g);
      }
      if PlanNamesGroup(plan, name) {
        BuiltHasGroups(final, plan, known, all, name);
      }
    }
    forall b ensures b in final.bindings <==> b in s.bindings || Footprint(final, plan, known, all, b) {
      if Footprint(final, plan, known, all, b) {
        BuiltHasFootprint(final, plan, known, all, b);
      }
    }
  }

  /**
   From a store without twin siblings: after any number of runs, each ended by a crash or a failed
   call anywhere, one run that completes leaves the branch exactly as a single clean run would.
   */
  lemma InterruptedRunsConverge(op: NodeOp, s: Store, runs: seq<Luck>, last: Luck, plan: seq<Item>, ids: seq<nat>)
    requires Builder(op) && Sound(s) && ValidPlan(plan, |ids|)
    requires Attempt(op, AfterRuns(op, s, runs, plan, ids), last, plan, ids).result.Ok?
    ensures var done := Attempt(op, AfterRuns(op, s, runs, plan, ids), last, plan, ids);
            && Sound(done.world.state) && ids <= done.result.value
            && BranchBuilt(done.world.state, plan, |ids|, done.result.value)
            && Converged(s, done.world.state, plan, |ids|, done.result.value)
  {
    var before := AfterRuns(op, s, runs, plan, ids);
    var w := World(before, last.fates, last.next);
    var done := Attempt(op, before, last, plan, ids);
    var final, all := done.world.state, done.result.value;
    RunsExtend(op, s, runs, plan, ids);
    WalkExtends(op, w, plan, ids);
    WalkBuilds(op, w, plan, ids);
    RunsConfined(op, s, runs, plan, ids, final, all);
    WalkConfined(op, w, plan, ids, final, all);
    ConfinedChain(s, before, final, final, plan, |ids|, all);
    BuiltAndConfinedConverge(s, final, plan, |ids|, all);
  }

  /** Nodes of one name call for the same groups, as those of the naming scheme do. */
  ghost predicate OneSpecPerName(plan: seq<Item>) {
    forall k, l | 0 <= k < |plan| && 0 <= l < |plan| && plan[k].spec.name == plan[l].spec.name ::
        plan[k].spec == plan[l].spec
  }

  /** A node the runs created carries exactly the bindings of its own structural groups. */
  lemma CreatedNodesCarryExactlyTheirGroups(s: Store, final: Store, plan: seq<Item>, known: nat, all: seq<nat>,
                                            k: nat, b: Binding)
    requires Converged(s, final, plan, known, all) && OneSpecPerName(plan) && k < |plan|
    requires forall x | x in s.bindings :: x.scope < |s.resources|
    requires all[known + k] >= |s.resources| && b.scope == all[known + k]
    ensures b in final.bindings <==> RoleBinding(final, b, plan[k].spec.helds)
  {
    if b in final.bindings {
      assert Footprint(final, plan, known, all, b);
      var l :| 0 <= l < |plan| && known + l < |all| && b.scope == all[known + l] &&
          RoleBinding(final, b, plan[l].spec.helds);
      assert NodeFits(final, all[known + l], plan[l].spec.name, ParentId(plan[l], all));
      assert NodeFits(final, all[known + k], plan[k].spec.name, ParentId(plan[k], all));
    }
    if RoleBinding(final, b, plan[k].spec.helds) {
      assert Footprint(final, plan, known, all, b);
    }
  }

  // ---------------------------------------------------------------- idempotence and the read-only twin

  ghost predicate Kept(s: Store, out: Step<Store, nat>, id: nat) {
    out.world.state == s && (out.result.Ok? ==> out.result.value == id)
  }

  /** On a finished node the operation changes nothing, and answers, if it does, with that node. */
  ghost predicate Keeper(op: NodeOp) {
    forall w: World<Store>, spec, parent, id: nat :: Sound(w.state) && NodeBuilt(w.state, spec, parent, id) ==>
      Kept(w.state, op(w, spec, parent), id)
  }

  lemma {:induction false} IndexIsUnique(groups: seq<string>, name: string, g: nat)
    requires Distinct(groups) && g < |groups| && groups[g] == name
    ensures IndexOf(groups, name) == g
  {
  }

  lemma GroupBindingIdle(w: World<Store>, held: Held, id: nat)
    requires Distinct(w.state.groups) && Bound(w.state, held, id)
    ensures EnsureGroupBinding(w, held, id).world.state == w.state
  {
  }

  lemma {:induction false} GroupsIdle(w: World<Store>, helds: seq<Held>, id: nat)
    requires Distinct(w.state.groups) && forall k | 0 <= k < |helds| :: Bound(w.state, helds[k], id)
    ensures Kept(w.state, EnsureGroups(w, helds, id), id)
    decreases |helds|
  {
    if helds != [] {
      GroupBindingIdle(w, helds[0], id);
      var first := EnsureGroupBinding(w, helds[0], id);
      if first.result.Ok? {
        GroupsIdle(first.world, helds[1..], id);
      }
    }
  }

  lemma TwoMatchesAreTwins(resources: seq<Resource>, name: string, parent: Option<nat>)
    requires |Matches(resources, parent, name)| > 1
    ensures !NoTwins(resources)
  {
    var found := Matches(resources, parent, name);
    MatchesAreTheFits(resources, parent, name);
    assert found[0] in found && found[1] in found;
  }

  lemma AtMostOneMatch(s: Store, name: string, parent: Option<nat>)
    requires NoTwins(s.resources)
    ensures |Matches(s.resources, parent, name)| <= 1
  {
    if |Matches(s.resources, parent, name)| > 1 {
      TwoMatchesAreTwins(s.resources, name, parent);
    }
  }

  lemma FittingNodeIsMatched(s: Store, name: string, parent: Option<nat>, id: nat)
    requires NoTwins(s.resources) && NodeFits(s, id, name, parent)
    ensures Matches(s.resources, parent, name) == [id]
  {
    MatchesAreTheFits(s.resources, parent, name);
    AtMostOneMatch(s, name, parent);
    assert id in Matches(s.resources, parent, name);
  }

  lemma BothKeep()
    ensures Keeper(EnsureResource) && Keeper(Expect)
  {
    forall w: World<Store>, spec, parent, id: nat | Sound(w.state) && NodeBuilt(w.state, spec, parent, id)
      ensures Kept(w.state, EnsureResource(w, spec, parent), id) && Kept(w.state, Expect(w, spec, parent), id)
    {
      FittingNodeIsMatched(w.state, spec.name, parent, id);
      GroupsIdle(Read(w).world, spec.helds, id);
    }
  }

  lemma CheckingIsSafe(s: Store, node: Step<Store, nat>, spec: Spec, parent: Option<nat>, id: nat)
    ensures Outcome(s, node, spec, parent) ==> Outcome(s, Checked(node), spec, parent)
    ensures Kept(s, node, id) ==> Kept(s, Checked(node), id)
  {
  }

  /** Checking the tenant spoils neither. */
  lemma EnsureInTenantIsSafe()
    ensures Builder(EnsureInTenant) && Keeper(EnsureInTenant)
  {
    forall w: World<Store>, spec, parent | Sound(w.state)
      ensures Outcome(w.state, EnsureInTenant(w, spec, parent), spec, parent)
    {
      EnsureResourceGrows(w, spec, parent);
      CheckingIsSafe(w.state, EnsureResource(w, spec, parent), spec, parent, 0);
    }
    BothKeep();
    forall w: World<Store>, spec, parent, id: nat | Sound(w.state) && NodeBuilt(w.state, spec, parent, id)
      ensures Kept(w.state, EnsureInTenant(w, spec, parent), id)
    {
      assert Kept(w.state, EnsureResource(w, spec, parent), id);
      CheckingIsSafe(w.state, EnsureResource(w, spec, parent), spec, parent, id);
    }
  }

  lemma {:induction false} WalkKeeps(op: NodeOp, w: World<Store>, plan: seq<Item>, ids: seq<nat>, all: seq<nat>)
    requires Keeper(op) && Sound(w.state) && BranchBuilt(w.state, plan, |ids|, all) && ids <= all
    ensures Walk(op, w, plan, ids).world.state == w.state
    ensures Walk(op, w, plan, ids).result.Ok? ==> Walk(op, w, plan, ids).result.value == all
    decreases |plan|
  {
    if plan != [] {
      var spec, parent := plan[0].spec, ParentId(plan[0], ids);
      assert parent == ParentId(plan[0], all);
      assert NodeBuilt(w.state, spec, parent, all[|ids| + 0]);
      var node := op(w, spec, parent);
      assert Kept(w.state, node, all[|ids|]);
      if node.result.Ok? {
        BranchTail(w.state, plan, |ids|, all);
        WalkKeeps(op, node.world, plan[1..], ids + [node.result.value], all);
      }
    }
  }

  /** A further run of a finished branch changes nothing, however it ends, and answers with the same nodes. */
  lemma AnotherRunChangesNothing(op: NodeOp, s: Store, again: Luck, plan: seq<Item>, ids: seq<nat>, all: seq<nat>)
    requires Keeper(op) && Sound(s) && BranchBuilt(s, plan, |ids|, all) && ids <= all
    ensures Attempt(op, s, again, plan, ids).world.state == s
    ensures Attempt(op, s, again, plan, ids).result.Ok? ==> Attempt(op, s, again, plan, ids).result.value == all
  {
    WalkKeeps(op, World(s, again.fates, again.next), plan, ids, all);
  }

  // ---------------------------------------------------------------- completion

  lemma GroupBindingFinishes(w: World<Store>, held: Held, id: nat, n: nat)
    requires Clear(w.fates, 5 + n) && held.role in w.state.roles && w.state.setting.scopes != OneScope
    ensures EnsureGroupBinding(w, held, id).result.Ok? && Clear(EnsureGroupBinding(w, held, id).world.fates, n)
    ensures EnsureGroupBinding(w, held, id).world.state.roles == w.state.roles
    ensures EnsureGroupBinding(w, held, id).world.state.setting == w.state.setting
  {
  }

  lemma {:induction false} GroupsFinish(w: World<Store>, helds: seq<Held>, id: nat, n: nat)
    requires Clear(w.fates, 5 * |helds| + n) && forall k | 0 <= k < |helds| :: helds[k].role in w.state.roles
    requires w.state.setting.scopes != OneScope
    ensures EnsureGroups(w, helds, id).result == Ok(id) && Clear(EnsureGroups(w, helds, id).world.fates, n)
    ensures EnsureGroups(w, helds, id).world.state.roles == w.state.roles
    decreases |helds|
  {
    if helds != [] {
      GroupBindingFinishes(w, helds[0], id, 5 * |helds[1..]| + n);
      GroupsFinish(EnsureGroupBinding(w, helds[0], id).world, helds[1..], id, n);
    }
  }

  ghost predicate RolesExist(s: Store, spec: Spec) {
    forall k | 0 <= k < |spec.helds| :: spec.helds[k].role in s.roles
  }

  lemma EnsureResourceFinishes(w: World<Store>, spec: Spec, parent: Option<nat>, n: nat)
    requires Sound(w.state) && RolesExist(w.state, spec) && Clear(w.fates, 2 + 5 * |spec.helds| + n)
    requires w.state.setting.scopes != OneScope
    ensures EnsureResource(w, spec, parent).result.Ok? && Clear(EnsureResource(w, spec, parent).world.fates, n)
  {
    AtMostOneMatch(w.state, spec.name, parent);
    var node := ResolveOrCreate(w, spec, parent);
    GroupsFinish(node.world, spec.helds, node.result.value, n);
  }

  function Calls(plan: seq<Item>): nat {
    if plan == [] then 0 else 2 + 5 * |plan[0].spec.helds| + Calls(plan[1..])
  }

  /**
   Unless the server allows a group one scope only, no store is a dead end: a run whose calls are
   answered completes, given the catalog's roles. (`TreeDeadEnds` has every rule.)
   */
  lemma {:induction false} AnsweredRunsComplete(w: World<Store>, plan: seq<Item>, ids: seq<nat>)
    requires Sound(w.state) && ValidPlan(plan, |ids|) && Clear(w.fates, Calls(plan))
    requires forall k | 0 <= k < |plan| :: RolesExist(w.state, plan[k].spec)
    requires w.state.setting.scopes != OneScope
    ensures BuildPlan(w, plan, ids).result.Ok?
    decreases |plan|
  {
    if plan != [] {
      var spec, parent := plan[0].spec, ParentId(plan[0], ids);
      EnsureResourceFinishes(w, spec, parent, Calls(plan[1..]));
      EnsureResourceGrows(w, spec, parent);
      var node := EnsureResource(w, spec, parent);
      assert forall k | 0 <= k < |plan| - 1 :: plan[1..][k] == plan[k + 1] && RolesExist(w.state, plan[k + 1].spec);
      AnsweredRunsComplete(node.world, plan[1..], ids + [node.result.value]);
    }
  }

  ghost predicate Answers(w: World<Store>, out: Step<Store, nat>, id: nat) {
    w.fates != [] && w.fates[0] == Answered ==>
      out.result == Ok(id) && out.world.fates == w.fates[1..] && out.world.state == w.state
  }

  /** An answered call is enough for the operation to find a finished node. */
  ghost predicate Prompt(op: NodeOp) {
    forall w: World<Store>, spec, parent, id: nat :: Sound(w.state) && NodeBuilt(w.state, spec, parent, id) ==>
      Answers(w, op(w, spec, parent), id)
  }

  lemma ExpectIsPrompt()
    ensures Prompt(Expect)
  {
    forall w: World<Store>, spec, parent, id: nat | Sound(w.state) && NodeBuilt(w.state, spec, parent, id)
      ensures Answers(w, Expect(w, spec, parent), id)
    {
      FittingNodeIsMatched(w.state, spec.name, parent, id);
    }
  }

  lemma {:induction false} PromptWalksComplete(op: NodeOp, w: World<Store>, plan: seq<Item>, ids: seq<nat>,
                                               all: seq<nat>)
    requires Prompt(op) && Sound(w.state) && Clear(w.fates, |plan|)
    requires BranchBuilt(w.state, plan, |ids|, all) && ids <= all
    ensures Walk(op, w, plan, ids).result.Ok?
    decreases |plan|
  {
    if plan != [] {
      var spec, parent := plan[0].spec, ParentId(plan[0], ids);
      assert parent == ParentId(plan[0], all);
      assert NodeBuilt(w.state, spec, parent, all[|ids| + 0]);
      var node := op(w, spec, parent);
      assert Answers(w, node, all[|ids|]);
      BranchTail(w.state, plan, |ids|, all);
      PromptWalksComplete(op, node.world, plan[1..], ids + [all[|ids|]], all);
    }
  }

  /** What was built is what the read-only walk resolves. */
  lemma ResolveReturnsTheBranch(w: World<Store>, plan: seq<Item>, ids: seq<nat>, all: seq<nat>)
    requires Sound(w.state) && BranchBuilt(w.state, plan, |ids|, all) && ids <= all
    ensures ResolvePlan(w, plan, ids).world.state == w.state
    ensures ResolvePlan(w, plan, ids).result.Ok? ==> ResolvePlan(w, plan, ids).result.value == all
    ensures Clear(w.fates, |plan|) ==> ResolvePlan(w, plan, ids).result.Ok?
  {
    BothKeep();
    WalkKeeps(Expect, w, plan, ids, all);
    if Clear(w.fates, |plan|) {
      ExpectIsPrompt();
      PromptWalksComplete(Expect, w, plan, ids, all);
    }
  }

  /** Twins are refused and nothing is created: which one a decision meant would be a guess. */
  lemma TwinsAreRefused(w: World<Store>, spec: Spec, parent: Option<nat>, i: nat, j: nat)
    requires i < j && NodeFits(w.state, i, spec.name, parent) && NodeFits(w.state, j, spec.name, parent)
    ensures EnsureResource(w, spec, parent).world.state == w.state && EnsureResource(w, spec, parent).result.Err?
    ensures Expect(w, spec, parent).result.Err?
  {
    MatchesAreTheFits(w.state.resources, parent, spec.name);
    var found := Matches(w.state.resources, parent, spec.name);
    assert i in found && j in found;
  }
}
