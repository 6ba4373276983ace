/** When a build of the fixture branch completes (`stages/smoke.rs`), after any history of interrupted ones. */
module SmokeCompletion {
  import opened Common
  import opened Remote
  import opened Tree
  import opened TreeRuns
  import opened TreeConvergence
  import TreePlaces
  import TreeScopes
  import TreeDeadEnds
  import opened SmokeBranch
  import opened SmokeRuns

  /** Everything is in the tenant the client acts in, and what it creates lands there. */
  ghost predicate Tenanted(s: Store) {
    s.setting.lands == s.setting.acting && forall r | r in s.resources :: r.tenant == s.setting.acting
  }

  ghost predicate SameWhereTenanted(s: Store, x: Step<Store, nat>, y: Step<Store, nat>) {
    Sound(s) && Tenanted(s) ==> x == y && Sound(x.world.state) && Tenanted(x.world.state)
  }

  /** Two operations that do the same in such a store, and leave such a store. */
  ghost predicate Agree(a: NodeOp, b: NodeOp) {
    forall w: World<Store>, spec, parent :: SameWhereTenanted(w.state, a(w, spec, parent), b(w, spec, parent))
  }

  lemma EnsureResourceStaysTenanted(w: World<Store>, spec: Spec, parent: Option<nat>)
    requires Sound(w.state) && Tenanted(w.state)
    ensures Tenanted(EnsureResource(w, spec, parent).world.state)
  {
    var node := ResolveOrCreate(w, spec, parent);
    if node.result.Ok? {
      GroupsGrow(node.world, spec.helds, node.result.value);
    }
  }

  lemma CheckedWhereTenanted(s: Store, node: Step<Store, nat>, spec: Spec, parent: Option<nat>)
    requires Outcome(s, node, spec, parent) && Tenanted(node.world.state)
    ensures SameWhereTenanted(s, Checked(node), node)
  {
  }

  lemma TenantCheckAgrees()
    ensures Agree(EnsureInTenant, EnsureResource)
  {
    forall w: World<Store>, spec, parent
      ensures SameWhereTenanted(w.state, EnsureInTenant(w, spec, parent), EnsureResource(w, spec, parent))
    {
      if Sound(w.state) && Tenanted(w.state) {
        EnsureResourceGrows(w, spec, parent);
        EnsureResourceStaysTenanted(w, spec, parent);
        CheckedWhereTenanted(w.state, EnsureResource(w, spec, parent), spec, parent);
      }
    }
  }

  lemma {:induction false} WalksAgree(a: NodeOp, b: NodeOp, w: World<Store>, plan: seq<Item>, ids: seq<nat>)
    requires Agree(a, b) && Sound(w.state) && Tenanted(w.state) && ValidPlan(plan, |ids|)
    ensures var out := Walk(a, w, plan, ids);
            out == Walk(b, w, plan, ids) && Sound(out.world.state) && Tenanted(out.world.state)
    decreases |plan|
  {
    if plan != [] {
      var node := a(w, plan[0].spec, ParentId(plan[0], ids));
      assert SameWhereTenanted(w.state, node, b(w, plan[0].spec, ParentId(plan[0], ids)));
      if node.result.Ok? {
        WalksAgree(a, b, node.world, plan[1..], ids + [node.result.value]);
      }
    }
  }

  lemma BuildsAgree(a: NodeOp, b: NodeOp, s: Store, luck: Luck, plan: seq<Item>)
    requires Agree(a, b) && Sound(s) && Tenanted(s) && ValidPlan(plan, 1)
    ensures var out := BuildOnce(a, s, luck, plan);
            out == BuildOnce(b, s, luck, plan) && Sound(out.world.state) && Tenanted(out.world.state)
  {
    var root := Expect(World(s, luck.fates, luck.next), Root(), None);
    if root.result.Ok? {
      WalksAgree(a, b, root.world, plan, [root.result.value]);
    }
  }

  lemma {:induction false} HistoriesAgree(a: NodeOp, b: NodeOp, s: Store, runs: seq<Luck>, plan: seq<Item>)
    requires Agree(a, b) && Sound(s) && Tenanted(s) && ValidPlan(plan, 1)
    ensures var last := AfterBuilds(a, s, runs, plan);
            last == AfterBuilds(b, s, runs, plan) && Sound(last) && Tenanted(last)
    decreases |runs|
  {
    if runs != [] {
      BuildsAgree(a, b, s, runs[0], plan);
      HistoriesAgree(a, b, BuildOnce(a, s, runs[0], plan).world.state, runs[1..], plan);
    }
  }

  /** The tenant has one portfolio, and no role group the plan needs is taken where one scope is the rule. */
  ghost predicate CanBeBuilt(s: Store, plan: seq<Item>)
    requires ValidPlan(plan, 1)
  {
    var found := Matches(s.resources, None, "portfolio");
    && |found| == 1
    && (s.setting.scopes == OneScope ==> TreePlaces.PlanFree(s, plan, 1, TreePlaces.Places(s, plan, found)))
  }

  lemma OnePortfolioCompletesExactly(s: Store, runs: seq<Luck>, last: Luck, plan: seq<Item>, portfolio: nat)
    requires Sound(s) && ValidPlan(plan, 1) && TreeDeadEnds.AllRolesExist(s, plan)
    requires s.setting.scopes == OneScope ==> TreeScopes.Indexed(s) && TreePlaces.Linked(s)
    requires Clear(last.fates, 1 + Calls(plan)) && Matches(s.resources, None, "portfolio") == [portfolio]
    ensures BuildOnce(EnsureResource, AfterBuilds(EnsureResource, s, runs, plan), last, plan).result.Ok? <==>
              (s.setting.scopes == OneScope ==>
                 TreePlaces.PlanFree(s, plan, 1, TreePlaces.Places(s, plan, [portfolio])))
  {
    var before := AfterBuilds(EnsureResource, s, runs, plan);
    EnsureResourceBuilds();
    BuildsAreWalks(EnsureResource, s, runs, plan, portfolio);
    RunsExtend(EnsureResource, s, Started(runs), plan, [portfolio]);
    PortfolioStays(s, before, portfolio);
    BuildIsWalk(EnsureResource, before, last, plan, portfolio);
    MatchesAreTheFits(s.resources, None, "portfolio");
    assert portfolio in Matches(s.resources, None, "portfolio");
    ClearTail(last.fates, Calls(plan));
    TreeDeadEnds.AnsweredRunsCompleteExactly(s, Started(runs), Luck(last.fates[1..], last.next), plan, [portfolio]);
  }

  lemma EnsureBuildsCompleteExactly(s: Store, runs: seq<Luck>, last: Luck, plan: seq<Item>)
    requires Sound(s) && ValidPlan(plan, 1) && TreeDeadEnds.AllRolesExist(s, plan)
    requires s.setting.scopes == OneScope ==> TreeScopes.Indexed(s) && TreePlaces.Linked(s)
    requires Clear(last.fates, 1 + Calls(plan))
    ensures BuildOnce(EnsureResource, AfterBuilds(EnsureResource, s, runs, plan), last, plan).result.Ok? <==>
              CanBeBuilt(s, plan)
  {
    var found := Matches(s.resources, None, "portfolio");
    if |found| != 1 {
      NoPortfolioNoBuilds(EnsureResource, s, runs, plan);
      NoPortfolioNoBuild(EnsureResource, s, last, plan);
    } else {
      assert found == [found[0]];
      OnePortfolioCompletesExactly(s, runs, last, plan, found[0]);
    }
  }

  /**
   In a tenant of its own, after any interrupted builds one whose calls are answered completes exactly if
   the branch could be built in the tenant the first of them found.
   */
  lemma AnsweredBuildsCompleteExactly(s: Store, runs: seq<Luck>, last: Luck, plan: seq<Item>)
    requires Sound(s) && Tenanted(s) && ValidPlan(plan, 1) && TreeDeadEnds.AllRolesExist(s, plan)
    requires s.setting.scopes == OneScope ==> TreeScopes.Indexed(s) && TreePlaces.Linked(s)
    requires Clear(last.fates, 1 + Calls(plan))
    ensures BuildOnce(EnsureInTenant, AfterBuilds(EnsureInTenant, s, runs, plan), last, plan).result.Ok? <==>
              CanBeBuilt(s, plan)
  {
    TenantCheckAgrees();
    HistoriesAgree(EnsureInTenant, EnsureResource, s, runs, plan);
    BuildsAgree(EnsureInTenant, EnsureResource, AfterBuilds(EnsureResource, s, runs, plan), last, plan);
    EnsureBuildsCompleteExactly(s, runs, last, plan);
  }
}
