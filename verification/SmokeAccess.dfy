/** Who operates what in the fixture branch as the builder leaves it (`stages/smoke.rs`). */
module SmokeAccess {
  import opened Common
  import opened Naming
  import opened Remote
  import opened Tree
  import opened TreeRuns
  import opened TreeConvergence
  import opened TreeClient
  import opened SmokeBranch
  import opened SmokeRuns
  import opened StoreAccess
  import Access

  /** The portfolio, then the branch. */
  const ALL_KINDS := [Portfolio] + KINDS

  lemma SmokePlanHangs(specs: Specs, slugs: Slugs, plan: seq<Item>, k: nat)
    requires plan == PlanBy(specs, slugs) && k < |plan|
    ensures |plan| == 7 && plan[k].under.Some? && plan[k].under.value < 1 + k
    ensures Access.HangsUnder(ALL_KINDS[1 + k], ALL_KINDS[plan[k].under.value])
  {
  }

  lemma SmokePlanIsShaped(slugs: Slugs, plan: seq<Item>)
    requires Good(slugs) && plan == PlanBy(SpecIfNamed, slugs)
    ensures PlanShaped(plan, 1, ALL_KINDS)
  {
    forall k | 0 <= k < |plan|
      ensures OfKind(plan[k].spec, ALL_KINDS[1 + k])
      ensures plan[k].under.Some? && Access.HangsUnder(ALL_KINDS[1 + k], ALL_KINDS[plan[k].under.value])
    {
      SmokePlanHangs(SpecIfNamed, slugs, plan, k);
      PlanIsNamed(slugs, k);
      assert Specifies(KINDS[k], SlugAt(slugs, k), plan[k].spec) && ALL_KINDS[1 + k] == KINDS[k];
    }
  }

  lemma PortfolioIsOne(spare: Spared, s: Store, portfolio: nat)
    requires Sound(s) && Modelled(s, spare) && Matches(s.resources, None, "portfolio") == [portfolio]
    ensures StandsIn(s, [portfolio], ALL_KINDS, spare)
  {
    MatchesAreTheFits(s.resources, None, "portfolio");
    assert portfolio in Matches(s.resources, None, "portfolio");
    assert ReadsAs("portfolio", Portfolio, "");
    ReadsOneWay("portfolio", Portfolio, "", TreeOf(s)[portfolio].kind, TreeOf(s)[portfolio].slug);
  }

  lemma BuildsAreModelled(spare: Spared, op: NodeOp, s: Store, runs: seq<Luck>, plan: seq<Item>)
    requires Builder(op) && PlanShaped(plan, 1, ALL_KINDS) && Sound(s) && Modelled(s, spare)
    ensures Modelled(AfterBuilds(op, s, runs, plan), spare)
  {
    var found := Matches(s.resources, None, "portfolio");
    if |found| != 1 {
      NoPortfolioNoBuilds(op, s, runs, plan);
    } else {
      assert found == [found[0]];
      PortfolioIsOne(spare, s, found[0]);
      BuildsAreWalks(op, s, runs, plan, found[0]);
      RunsAreModelled(spare, op, s, Started(runs), plan, [found[0]], ALL_KINDS);
    }
  }

  /**
   At every cut of every history of fixture builds, from a tenant whose bindings were structural or
   harmless: staff alone operate no device in any apartment of the store, the fixture's included.
   */
  lemma StaffAreKeptOutOfTheFixture(spare: Spared, s: Store, runs: seq<Luck>, slugs: Slugs, plan: seq<Item>,
                                    groups: set<string>,
                                    a: nat, d: nat)
    requires Good(slugs) && plan == Plan(slugs) && Sound(s) && Modelled(s, spare) && Harmless(spare)
    requires Access.StaffOnly(groups)
    ensures var now := AfterBuilds(EnsureInTenant, s, runs, plan);
            && Modelled(now, spare)
            && (a in TreeOf(now) && TreeOf(now)[a].kind == Apartment && Access.Covers(TreeOf(now), a, d) ==>
                  !Access.Operates(TreeOf(now), BoundIn(now), groups, d))
  {
    SmokePlanIsShaped(slugs, plan);
    EnsureInTenantIsSafe();
    BuildsAreModelled(spare, EnsureInTenant, s, runs, plan);
    var now := AfterBuilds(EnsureInTenant, s, runs, plan);
    if a in TreeOf(now) && TreeOf(now)[a].kind == Apartment && Access.Covers(TreeOf(now), a, d) {
      StaffOperateNoApartment(spare, now, groups, a, d);
    }
  }

  /** Nodes 5 to 7 of a finished branch: both devices hang in the apartment. */
  lemma DevicesAreInTheApartment(s: Store, slugs: Slugs, plan: seq<Item>, all: seq<nat>)
    requires Good(slugs) && plan == Plan(slugs) && AllNamed(s) && BranchBuilt(s, plan, 1, all)
    ensures |plan| == 7 && |all| == 8
    ensures Access.Covers(TreeOf(s), all[5], all[6]) && Access.Covers(TreeOf(s), all[5], all[7])
  {
    PlanIsNamed(slugs, 6);
    PlanIsNamed(slugs, 5);
    PlanIsNamed(slugs, 4);
    var t := TreeOf(s);
    assert NodeBuilt(s, plan[5].spec, ParentId(plan[5], all), all[1 + 5]);
    assert NodeBuilt(s, plan[4].spec, ParentId(plan[4], all), all[1 + 4]);
    assert NodeBuilt(s, plan[6].spec, ParentId(plan[6], all), all[1 + 6]);
    assert t[all[6]].parent == Some(all[5]) && t[all[7]].parent == Some(all[5]);
    assert Access.Climbs(t, all[5], all[5], 0) && Access.Climbs(t, all[5], all[6], 1);
    assert Access.Climbs(t, all[5], all[7], 1);
  }

  lemma ResidentsAreTheOperators(slugs: Slugs, spec: Spec)
    requires Good(slugs) && SpecOf(Apartment, slugs.apartment) == Ok(spec)
    ensures |spec.helds| == 1 && spec.helds[0].role == "resident"
    ensures GroupName("resident", Apartment, slugs.apartment) == Ok(spec.helds[0].group)
  {
    assert StructuralGroupsFor(Apartment) == ["resident"];
    SpecHoldsStructuralGroups(Apartment, slugs.apartment, 0);
  }

  lemma ResidentsOperateTheDevices(s: Store, slugs: Slugs, plan: seq<Item>, all: seq<nat>, group: string)
    requires Good(slugs) && plan == Plan(slugs) && AllNamed(s) && BranchBuilt(s, plan, 1, all)
    requires GroupName("resident", Apartment, slugs.apartment) == Ok(group)
    ensures |all| == 8 && Access.Operates(TreeOf(s), BoundIn(s), {group}, all[6])
    ensures Access.Operates(TreeOf(s), BoundIn(s), {group}, all[7])
  {
    DevicesAreInTheApartment(s, slugs, plan, all);
    PlanIsNamed(slugs, 4);
    ResidentsAreTheOperators(slugs, plan[4].spec);
    BuiltOperatorsOperate(s, plan, 1, all, 4, Apartment, slugs.apartment, 0, all[6]);
    BuiltOperatorsOperate(s, plan, 1, all, 4, Apartment, slugs.apartment, 0, all[7]);
  }

  lemma {:induction false} AfterOneMore(op: NodeOp, s: Store, runs: seq<Luck>, last: Luck, plan: seq<Item>)
    requires ValidPlan(plan, 1)
    ensures AfterBuilds(op, s, runs + [last], plan) ==
            BuildOnce(op, AfterBuilds(op, s, runs, plan), last, plan).world.state
    decreases |runs|
  {
    if runs == [] {
      assert AfterBuilds(op, s, [last], plan) == AfterBuilds(op, BuildOnce(op, s, last, plan).world.state, [], plan);
      assert runs + [last] == [last];
    } else {
      assert (runs + [last])[1..] == runs[1..] + [last];
      AfterOneMore(op, BuildOnce(op, s, runs[0], plan).world.state, runs[1..], last, plan);
    }
  }

  lemma CompletedBuildIsModelled(spare: Spared, op: NodeOp, s: Store, runs: seq<Luck>, last: Luck, plan: seq<Item>)
    requires Builder(op) && PlanShaped(plan, 1, ALL_KINDS) && Sound(s) && Modelled(s, spare)
    requires BuildOnce(op, AfterBuilds(op, s, runs, plan), last, plan).result.Ok?
    ensures var done := BuildOnce(op, AfterBuilds(op, s, runs, plan), last, plan);
            Modelled(done.world.state, spare) && BranchBuilt(done.world.state, plan, 1, done.result.value)
  {
    BuildsAreModelled(spare, op, s, runs + [last], plan);
    AfterOneMore(op, s, runs, last, plan);
    InterruptedBuildsConverge(op, s, runs, last, plan);
  }

  /** And once a build completes, the apartment's residents do operate both devices in it. */
  lemma ResidentsOperateTheFixture(spare: Spared, s: Store, runs: seq<Luck>, last: Luck, slugs: Slugs,
                                   plan: seq<Item>, group: string)
    requires Good(slugs) && plan == Plan(slugs) && Sound(s) && Modelled(s, spare)
    requires GroupName("resident", Apartment, slugs.apartment) == Ok(group)
    requires BuildOnce(EnsureInTenant, AfterBuilds(EnsureInTenant, s, runs, plan), last, plan).result.Ok?
    ensures var done := BuildOnce(EnsureInTenant, AfterBuilds(EnsureInTenant, s, runs, plan), last, plan);
            && AllNamed(done.world.state) && |done.result.value| == 8
            && Access.Operates(TreeOf(done.world.state), BoundIn(done.world.state), {group}, done.result.value[6])
            && Access.Operates(TreeOf(done.world.state), BoundIn(done.world.state), {group}, done.result.value[7])
  {
    SmokePlanIsShaped(slugs, plan);
    EnsureInTenantIsSafe();
    CompletedBuildIsModelled(spare, EnsureInTenant, s, runs, last, plan);
    var done := BuildOnce(EnsureInTenant, AfterBuilds(EnsureInTenant, s, runs, plan), last, plan);
    ResidentsOperateTheDevices(done.world.state, slugs, plan, done.result.value, group);
  }
}
