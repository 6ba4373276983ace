/** Histories of the fixture branch: built in any number of interrupted runs, then resolved (`stages/smoke.rs`). */
module SmokeRuns {
  import opened Common
  import opened Naming
  import opened Remote
  import opened Tree
  import opened TreeRuns
  import opened TreeConvergence
  import opened TreeClient
  import opened SmokeBranch

  function BuildOnce(op: NodeOp, s: Store, luck: Luck, plan: seq<Item>): Step<Store, seq<nat>>
    requires ValidPlan(plan, 1)
  {
    UnderPortfolio(op, World(s, luck.fates, luck.next), plan)
  }

  /** The store after a number of builds, each ending wherever it did. */
  function AfterBuilds(op: NodeOp, s: Store, runs: seq<Luck>, plan: seq<Item>): Store
    requires ValidPlan(plan, 1)
    decreases |runs|
  {
    if runs == [] then s else AfterBuilds(op, BuildOnce(op, s, runs[0], plan).world.state, runs[1..], plan)
  }

  // ---------------------------------------------------------------- builds as walks under one portfolio

  /** The builds that get past the listing of roots, with the luck left to them. */
  function Started(runs: seq<Luck>): seq<Luck> {
    if runs == [] then []
    else if runs[0].fates != [] && runs[0].fates[0] == Answered then
      [Luck(runs[0].fates[1..], runs[0].next)] + Started(runs[1..])
    else Started(runs[1..])
  }

  predicate Starts(luck: Luck) { luck.fates != [] && luck.fates[0] == Answered }

  /** Without exactly one portfolio nothing is built. */
  lemma NoPortfolioNoBuild(op: NodeOp, s: Store, luck: Luck, plan: seq<Item>)
    requires ValidPlan(plan, 1) && |Matches(s.resources, None, "portfolio")| != 1
    ensures BuildOnce(op, s, luck, plan).world.state == s && BuildOnce(op, s, luck, plan).result.Err?
  {
  }

  lemma BuildIsWalk(op: NodeOp, s: Store, luck: Luck, plan: seq<Item>, portfolio: nat)
    requires ValidPlan(plan, 1) && Matches(s.resources, None, "portfolio") == [portfolio]
    ensures !Starts(luck) ==> BuildOnce(op, s, luck, plan).world.state == s && BuildOnce(op, s, luck, plan).result.Err?
    ensures Starts(luck) ==>
              BuildOnce(op, s, luck, plan) == Attempt(op, s, Luck(luck.fates[1..], luck.next), plan, [portfolio])
  {
  }

  lemma PortfolioStays(s: Store, s': Store, portfolio: nat)
    requires Sound(s') && Extends(s, s') && Matches(s.resources, None, "portfolio") == [portfolio]
    ensures Matches(s'.resources, None, "portfolio") == [portfolio]
  {
    MatchesAreTheFits(s.resources, None, "portfolio");
    assert portfolio in Matches(s.resources, None, "portfolio");
    FittingNodeIsMatched(s', "portfolio", None, portfolio);
  }

  lemma {:induction false} BuildsAreWalks(op: NodeOp, s: Store, runs: seq<Luck>, plan: seq<Item>, portfolio: nat)
    requires Builder(op) && Sound(s) && ValidPlan(plan, 1) && Matches(s.resources, None, "portfolio") == [portfolio]
    ensures AfterBuilds(op, s, runs, plan) == AfterRuns(op, s, Started(runs), plan, [portfolio])
    decreases |runs|
  {
    if runs != [] {
      BuildIsWalk(op, s, runs[0], plan, portfolio);
      if Starts(runs[0]) {
        var luck := Luck(runs[0].fates[1..], runs[0].next);
        var s' := Attempt(op, s, luck, plan, [portfolio]).world.state;
        WalkExtends(op, World(s, luck.fates, luck.next), plan, [portfolio]);
        PortfolioStays(s, s', portfolio);
        BuildsAreWalks(op, s', runs[1..], plan, portfolio);
        assert Started(runs) == [luck] + Started(runs[1..]);
        assert Started(runs)[1..] == Started(runs[1..]);
      } else {
        BuildsAreWalks(op, s, runs[1..], plan, portfolio);
      }
    }
  }

  lemma {:induction false} NoPortfolioNoBuilds(op: NodeOp, s: Store, runs: seq<Luck>, plan: seq<Item>)
    requires ValidPlan(plan, 1) && |Matches(s.resources, None, "portfolio")| != 1
    ensures AfterBuilds(op, s, runs, plan) == s
    decreases |runs|
  {
    if runs != [] {
      NoPortfolioNoBuild(op, s, runs[0], plan);
      NoPortfolioNoBuilds(op, s, runs[1..], plan);
    }
  }

  /**
   Whole builds, whatever interrupted them and wherever: once one completes the branch hangs under the
   one portfolio the first of them found, as a single clean build would have left it.
   */
  lemma InterruptedBuildsConverge(op: NodeOp, s: Store, runs: seq<Luck>, last: Luck, plan: seq<Item>)
    requires Builder(op) && Sound(s) && ValidPlan(plan, 1)
    requires BuildOnce(op, AfterBuilds(op, s, runs, plan), last, plan).result.Ok?
    ensures Sound(AfterBuilds(op, s, runs, plan))
    ensures var done := BuildOnce(op, AfterBuilds(op, s, runs, plan), last, plan);
            && |done.result.value| == 1 + |plan| && Matches(s.resources, None, "portfolio") == [done.result.value[0]]
            && Sound(done.world.state) && BranchBuilt(done.world.state, plan, 1, done.result.value)
            && Converged(s, done.world.state, plan, 1, done.result.value)
  {
    var found := Matches(s.resources, None, "portfolio");
    if |found| != 1 {
      NoPortfolioNoBuilds(op, s, runs, plan);
      NoPortfolioNoBuild(op, s, last, plan);
    } else {
      var portfolio, before := found[0], AfterBuilds(op, s, runs, plan);
      BuildsAreWalks(op, s, runs, plan, portfolio);
      RunsExtend(op, s, Started(runs), plan, [portfolio]);
      PortfolioStays(s, before, portfolio);
      BuildIsWalk(op, before, last, plan, portfolio);
      InterruptedRunsConverge(op, s, Started(runs), Luck(last.fates[1..], last.next), plan, [portfolio]);
    }
  }

  /** Whatever a completed build returned, a later resolve of the same store returns, or fails; it changes nothing. */
  lemma ResolveReturnsWhatBuildReturned(op: NodeOp, s: Store, luck: Luck, later: World<Store>, plan: seq<Item>)
    requires Builder(op) && Sound(s) && ValidPlan(plan, 1) && BuildOnce(op, s, luck, plan).result.Ok?
    requires later.state == BuildOnce(op, s, luck, plan).world.state
    ensures UnderPortfolio(Expect, later, plan).world.state == later.state
    ensures UnderPortfolio(Expect, later, plan).result.Ok? ==>
              UnderPortfolio(Expect, later, plan).result == BuildOnce(op, s, luck, plan).result
    ensures Clear(later.fates, |plan| + 1) ==> UnderPortfolio(Expect, later, plan).result.Ok?
  {
    InterruptedBuildsConverge(op, s, [], luck, plan);
    var all := BuildOnce(op, s, luck, plan).result.value;
    PortfolioStays(s, later.state, all[0]);
    ResolveReturnsTheBranch(Expect(later, Root(), None).world, plan, [all[0]], all);
  }

  // ---------------------------------------------------------------- the fixture's own branch

  const KINDS := [Site, SiteCommon, Building, BuildingCommon, Apartment, Device, Device]

  function SlugAt(s: Slugs, k: nat): string
    requires k < 7
  {
    [s.site, s.common, s.building, s.common, s.apartment, s.device, s.peer][k]
  }

  lemma PlanIsNamed(slugs: Slugs, k: nat)
    requires Good(slugs) && k < 7
    ensures |Plan(slugs)| == 7 && SpecOf(KINDS[k], SlugAt(slugs, k)) == Ok(Plan(slugs)[k].spec)
  {
    assert ValidSlug(SlugAt(slugs, k));
  }

  /** Its nodes of one name call for the same groups. */
  lemma SmokePlanHasOneSpecPerName(slugs: Slugs)
    requires Good(slugs)
    ensures |Plan(slugs)| == 7 && OneSpecPerName(Plan(slugs))
  {
    PlanIsNamed(slugs, 0);
    forall k, l | 0 <= k < 7 && 0 <= l < 7 && Plan(slugs)[k].spec.name == Plan(slugs)[l].spec.name
      ensures Plan(slugs)[k].spec == Plan(slugs)[l].spec
    {
      PlanIsNamed(slugs, k);
      PlanIsNamed(slugs, l);
      NamesDetermineSpecs(KINDS[k], SlugAt(slugs, k), KINDS[l], SlugAt(slugs, l));
    }
  }

  ghost predicate InTenantFrom(s: Store, known: nat, ids: seq<nat>) {
    forall k | known <= k < |ids| :: ids[k] < |s.resources| && s.resources[ids[k]].tenant == s.setting.acting
  }

  ghost predicate Landed(node: Step<Store, nat>) { node.result.Ok? ==> InTenant(node.world.state, node.result.value) }

  /** An answer means the node is in the acting tenant. */
  ghost predicate Lands(op: NodeOp) {
    forall w: World<Store>, spec, parent :: Landed(op(w, spec, parent))
  }

  lemma {:induction false} WalkLands(op: NodeOp, w: World<Store>, plan: seq<Item>, known: nat, ids: seq<nat>)
    requires Builder(op) && Lands(op) && Sound(w.state) && ValidPlan(plan, |ids|) && InTenantFrom(w.state, known, ids)
    ensures Walk(op, w, plan, ids).result.Ok? ==>
              InTenantFrom(Walk(op, w, plan, ids).world.state, known, Walk(op, w, plan, ids).result.value)
    decreases |plan|
  {
    if plan != [] {
      var node := op(w, plan[0].spec, ParentId(plan[0], ids));
      assert Outcome(w.state, node, plan[0].spec, ParentId(plan[0], ids)) && Landed(node);
      if node.result.Ok? {
        WalkLands(op, node.world, plan[1..], known, ids + [node.result.value]);
      }
    }
  }

  lemma EnsureInTenantLands()
    ensures Lands(EnsureInTenant)
  {
    forall w: World<Store>, spec, parent ensures Landed(EnsureInTenant(w, spec, parent)) {
    }
  }

  lemma BuildLands(op: NodeOp, s: Store, luck: Luck, plan: seq<Item>)
    requires Builder(op) && Lands(op) && Sound(s) && ValidPlan(plan, 1) && BuildOnce(op, s, luck, plan).result.Ok?
    ensures InTenantFrom(BuildOnce(op, s, luck, plan).world.state, 1, BuildOnce(op, s, luck, plan).result.value)
  {
    InterruptedBuildsConverge(op, s, [], luck, plan);
    var portfolio := BuildOnce(op, s, luck, plan).result.value[0];
    BuildIsWalk(op, s, luck, plan, portfolio);
    WalkLands(op, World(s, luck.fates[1..], luck.next), plan, 1, [portfolio]);
  }

  /** What a completed history of the fixture's builds has made. */
  ghost predicate BranchStands(s: Store, final: Store, plan: seq<Item>, all: seq<nat>) {
    && |all| == 1 + |plan| && Converged(s, final, plan, 1, all) && InTenantFrom(final, 1, all)
    && forall k, b: Binding | 0 <= k < |plan| && all[1 + k] >= |s.resources| && b.scope == all[1 + k] ::
        b in final.bindings <==> RoleBinding(final, b, plan[k].spec.helds)
  }

  lemma InterruptedBuildsStand(op: NodeOp, s: Store, runs: seq<Luck>, last: Luck, plan: seq<Item>)
    requires Builder(op) && Lands(op) && Sound(s) && ValidPlan(plan, 1) && OneSpecPerName(plan)
    requires forall b | b in s.bindings :: b.scope < |s.resources|
    requires BuildOnce(op, AfterBuilds(op, s, runs, plan), last, plan).result.Ok?
    ensures var done := BuildOnce(op, AfterBuilds(op, s, runs, plan), last, plan);
            BranchStands(s, done.world.state, plan, done.result.value)
  {
    InterruptedBuildsConverge(op, s, runs, last, plan);
    BuildLands(op, AfterBuilds(op, s, runs, plan), last, plan);
    var done := BuildOnce(op, AfterBuilds(op, s, runs, plan), last, plan);
    var final, all := done.world.state, done.result.value;
    forall k, b: Binding | 0 <= k < |plan| && all[1 + k] >= |s.resources| && b.scope == all[1 + k]
      ensures b in final.bindings <==> RoleBinding(final, b, plan[k].spec.helds)
    {
      CreatedNodesCarryExactlyTheirGroups(s, final, plan, 1, all, k, b);
    }
  }

  /**
   For any valid slugs: after any interrupted builds one that completes leaves exactly the branch, in the
   acting tenant, and each node the builds created holds exactly the bindings of its structural groups.
   */
  lemma SmokeBuildsConverge(s: Store, runs: seq<Luck>, last: Luck, slugs: Slugs, plan: seq<Item>)
    requires Good(slugs) && plan == Plan(slugs)
    requires Sound(s) && forall b | b in s.bindings :: b.scope < |s.resources|
    requires BuildOnce(EnsureInTenant, AfterBuilds(EnsureInTenant, s, runs, plan), last, plan).result.Ok?
    ensures var done := BuildOnce(EnsureInTenant, AfterBuilds(EnsureInTenant, s, runs, plan), last, plan);
            BranchStands(s, done.world.state, plan, done.result.value)
  {
    SmokePlanHasOneSpecPerName(slugs);
    EnsureInTenantIsSafe();
    EnsureInTenantLands();
    InterruptedBuildsStand(EnsureInTenant, s, runs, last, plan);
  }
}
