/** What the fixture branch's nodes are stamped with, over every history of builds (`stages/smoke.rs`). */
module SmokeMarks {
  import opened Common
  import opened Remote
  import opened Naming
  import opened Tree
  import opened TreeStamps
  import opened SmokeBranch
  import opened SmokeRuns

  function BuildRunner(op: NodeOp, plan: seq<Item>): Runner
    requires ValidPlan(plan, 1)
  {
    (s: Store, luck: Luck) => BuildOnce(op, s, luck, plan)
  }

  lemma BuildsMark(op: NodeOp, plan: seq<Item>)
    requires Stamper(op) && Recorder(op) && PlanTyped(plan) && ValidPlan(plan, 1)
    ensures Marks(BuildRunner(op, plan))
  {
    var run := BuildRunner(op, plan);
    forall s: Store, luck: Luck ensures StampsRun(run, s, luck) && TypesRun(run, s, luck) {
      var w := World(s, luck.fates, luck.next);
      var root := Expect(w, Root(), None);
      if root.result.Ok? {
        WalkTypes(op, root.world, plan, [root.result.value]);
        if FreshFrom(s, luck.next) {
          WalkStamps(op, root.world, plan, [root.result.value]);
        }
      } else if FreshFrom(s, luck.next) {
        SameResourcesStamp(w, root.world);
      }
    }
  }

  lemma {:induction false} BuildHistories(op: NodeOp, plan: seq<Item>, s: Store, runs: seq<Luck>)
    requires ValidPlan(plan, 1)
    ensures After(BuildRunner(op, plan), s, runs) == AfterBuilds(op, s, runs, plan)
    decreases |runs|
  {
    if runs != [] {
      BuildHistories(op, plan, BuildOnce(op, s, runs[0], plan).world.state, runs[1..]);
    }
  }

  lemma SmokePlanIsTyped(slugs: Slugs, plan: seq<Item>)
    requires Good(slugs) && plan == Plan(slugs)
    ensures PlanTyped(plan)
  {
    forall k | 0 <= k < |plan| ensures plan[k].spec.resourceType == BeforeColon(plan[k].spec.name) {
      PlanIsNamed(slugs, k);
      SpecIsTyped(KINDS[k], SlugAt(slugs, k), plan[k].spec);
    }
  }

  /**
   Over every history of fixture builds with fresh values: each node created has an identifier no other
   node has, its type is its name up to the first colon, and it lies where creations land.
   */
  lemma SmokeNodesAreMarked(slugs: Slugs, plan: seq<Item>, s: Store, runs: seq<Luck>)
    requires Good(slugs) && plan == Plan(slugs) && FreshHistory(BuildRunner(EnsureInTenant, plan), s, runs)
    ensures var now := AfterBuilds(EnsureInTenant, s, runs, plan);
            StampedApart(s, now) && NewAreTyped(s, now)
  {
    BothStamp();
    BothRecord();
    SmokePlanIsTyped(slugs, plan);
    BuildsMark(EnsureInTenant, plan);
    HistoriesMark(BuildRunner(EnsureInTenant, plan), s, runs);
    BuildHistories(EnsureInTenant, plan, s, runs);
  }
}
