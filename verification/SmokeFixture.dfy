/** The fixture branch as it stands in the store, node by node (`stages/smoke.rs`). */
module SmokeFixture {
  import opened Common
  import opened Naming
  import opened Remote
  import opened Tree
  import opened TreeRuns
  import opened TreeConvergence
  import opened TreeClient
  import opened SmokeBranch
  import opened SmokeRuns

  /** A node of this name under this parent, with these roles bound to it, each through its own group. */
  ghost predicate Stands(s: Store, id: nat, name: string, parent: nat, roles: seq<string>) {
    && NodeFits(s, id, name, Some(parent))
    && forall k | 0 <= k < |roles| :: Bound(s, Held(roles[k], roles[k] + "@" + name), id)
  }

  const COMMON_ROLES := ["common-operator", "common-device-manager"]

  /** The site and its building, each with a common area. */
  ghost predicate SiteStands(s: Store, b: Branch, slugs: Slugs) {
    && Stands(s, b.site, "site:" + slugs.site, b.portfolio, ["installer", "concierge"])
    && Stands(s, b.siteCommon, "common:site:" + slugs.common, b.site, COMMON_ROLES)
    && Stands(s, b.building, "building:" + slugs.building, b.site, [])
    && Stands(s, b.buildingCommon, "common:building:" + slugs.common, b.building, COMMON_ROLES)
  }

  /** The apartment and both devices in it. */
  ghost predicate ApartmentStands(s: Store, b: Branch, slugs: Slugs) {
    && Stands(s, b.apartment, "apartment:" + slugs.apartment, b.building, ["resident"])
    && Stands(s, b.device, "device:" + slugs.device, b.apartment, [])
    && Stands(s, b.peerDevice, "device:" + slugs.peer, b.apartment, [])
  }

  /** The branch under its portfolio: what hangs where, and under which name. */
  ghost predicate IsTheFixture(s: Store, b: Branch, slugs: Slugs) {
    NodeFits(s, b.portfolio, "portfolio", None) && SiteStands(s, b, slugs) && ApartmentStands(s, b, slugs)
  }

  /** Node `k` of the plan: its name, its parent's place, and its roles. */
  ghost predicate ItemIs(item: Item, name: string, under: nat, roles: seq<string>) {
    && item.spec.name == name && item.under == Some(under) && |item.spec.helds| == |roles|
    && forall k | 0 <= k < |roles| :: item.spec.helds[k] == Held(roles[k], roles[k] + "@" + name)
  }

  lemma SpecHolds(kind: Kind, slug: string, spec: Spec, roles: seq<string>)
    requires SpecOf(kind, slug) == Ok(spec) && roles == StructuralGroupsFor(kind)
    ensures |spec.helds| == |roles|
    ensures forall k | 0 <= k < |roles| :: spec.helds[k] == Held(roles[k], roles[k] + "@" + spec.name)
  {
    forall k: nat | k < |roles|
      ensures |spec.helds| == |roles| && spec.helds[k] == Held(roles[k], roles[k] + "@" + spec.name)
    {
      HeldAtEach(roles, spec.name, k);
    }
    if roles == [] {
      assert spec.helds == [];
    }
  }

  lemma ItemStands(s: Store, plan: seq<Item>, all: seq<nat>, k: nat, name: string, under: nat, roles: seq<string>)
    requires BranchBuilt(s, plan, 1, all) && k < |plan| && under < 1 + k && ItemIs(plan[k], name, under, roles)
    ensures Stands(s, all[1 + k], name, all[under], roles)
  {
    assert NodeBuilt(s, plan[k].spec, ParentId(plan[k], all), all[1 + k]);
  }

  /** Where a node of the plan hangs. */
  ghost predicate HangsUnder(k: nat, under: nat) { k < 7 && under == [0, 1, 1, 3, 3, 5, 5][k] }

  /** Row `k` of the plan, in words. */
  ghost predicate Row(k: nat, head: string, under: nat, roles: seq<string>) {
    && HangsUnder(k, under) && KINDS[k] != Portfolio && Prefix(KINDS[k]) == head
    && StructuralGroupsFor(KINDS[k]) == roles
  }

  lemma PlanItem(specs: Specs, slugs: Slugs, plan: seq<Item>, k: nat, under: nat)
    requires plan == PlanBy(specs, slugs) && HangsUnder(k, under)
    ensures |plan| == 7 && plan[k].under == Some(under) && under < 1 + k
  {
  }

  /** Each node of the plan, by its name, its parent's place and its roles. */
  lemma PlannedItem(slugs: Slugs, plan: seq<Item>, k: nat, head: string, under: nat, roles: seq<string>)
    requires Good(slugs) && plan == Plan(slugs) && Row(k, head, under, roles)
    ensures |plan| == 7 && under < 1 + k && ItemIs(plan[k], head + ":" + SlugAt(slugs, k), under, roles)
  {
    PlanIsNamed(slugs, k);
    PlanItem(SpecIfNamed, slugs, plan, k, under);
    SpecHolds(KINDS[k], SlugAt(slugs, k), plan[k].spec, roles);
  }

  ghost predicate Hung(s: Store, slugs: Slugs, all: seq<nat>, k: nat, head: string, under: nat, roles: seq<string>) {
    && k < 7 && |all| == 8 && under < 8
    && Stands(s, all[1 + k], head + ":" + SlugAt(slugs, k), all[under], roles)
  }

  ghost predicate Built(s: Store, slugs: Slugs, all: seq<nat>) {
    && |all| == 8
    && forall k: nat, head, under, roles | Row(k, head, under, roles) :: Hung(s, slugs, all, k, head, under, roles)
  }

  lemma EachRowIsHung(s: Store, slugs: Slugs, plan: seq<Item>, all: seq<nat>)
    requires Good(slugs) && plan == Plan(slugs) && |plan| == 7 && BranchBuilt(s, plan, 1, all) && |all| == 8
    ensures Built(s, slugs, all)
  {
    forall k: nat, head, under, roles | Row(k, head, under, roles)
      ensures Hung(s, slugs, all, k, head, under, roles)
    {
      PlannedItem(slugs, plan, k, head, under, roles);
      ItemStands(s, plan, all, k, head + ":" + SlugAt(slugs, k), under, roles);
    }
  }

  lemma CommonRows()
    ensures Row(1, "common:site", 1, COMMON_ROLES) && Row(3, "common:building", 3, COMMON_ROLES)
  {
  }

  lemma OtherRows()
    ensures Row(0, "site", 0, ["installer", "concierge"]) && Row(2, "building", 1, [])
    ensures Row(4, "apartment", 3, ["resident"]) && Row(5, "device", 5, []) && Row(6, "device", 5, [])
  {
  }

  lemma HungAt(s: Store, slugs: Slugs, all: seq<nat>, k: nat, head: string, under: nat, roles: seq<string>,
               name: string)
    requires Built(s, slugs, all) && Row(k, head, under, roles)
    requires k < 7 && name == head + ":" + SlugAt(slugs, k)
    ensures |all| == 8 && under < 8 && Stands(s, all[1 + k], name, all[under], roles)
  {
    assert Hung(s, slugs, all, k, head, under, roles);
  }

  lemma SiteHangs(s: Store, slugs: Slugs, all: seq<nat>)
    requires Built(s, slugs, all)
    ensures |all| == 8 && Stands(s, all[1], "site:" + slugs.site, all[0], ["installer", "concierge"])
  {
    OtherRows();
    assert "site:" == "site" + ":";
    HungAt(s, slugs, all, 0, "site", 0, ["installer", "concierge"], "site:" + slugs.site);
  }

  lemma SiteCommonHangs(s: Store, slugs: Slugs, all: seq<nat>)
    requires Built(s, slugs, all)
    ensures |all| == 8 && Stands(s, all[2], "common:site:" + slugs.common, all[1], COMMON_ROLES)
  {
    CommonRows();
    assert "common:site:" == "common:site" + ":";
    HungAt(s, slugs, all, 1, "common:site", 1, COMMON_ROLES, "common:site:" + slugs.common);
  }

  lemma BuildingHangs(s: Store, slugs: Slugs, all: seq<nat>)
    requires Built(s, slugs, all)
    ensures |all| == 8 && Stands(s, all[3], "building:" + slugs.building, all[1], [])
  {
    OtherRows();
    assert "building:" == "building" + ":";
    HungAt(s, slugs, all, 2, "building", 1, [], "building:" + slugs.building);
  }

  lemma BuildingCommonHangs(s: Store, slugs: Slugs, all: seq<nat>)
    requires Built(s, slugs, all)
    ensures |all| == 8 && Stands(s, all[4], "common:building:" + slugs.common, all[3], COMMON_ROLES)
  {
    CommonRows();
    assert "common:building:" == "common:building" + ":";
    HungAt(s, slugs, all, 3, "common:building", 3, COMMON_ROLES, "common:building:" + slugs.common);
  }

  lemma ApartmentHangs(s: Store, slugs: Slugs, all: seq<nat>)
    requires Built(s, slugs, all)
    ensures |all| == 8 && Stands(s, all[5], "apartment:" + slugs.apartment, all[3], ["resident"])
  {
    OtherRows();
    assert "apartment:" == "apartment" + ":";
    HungAt(s, slugs, all, 4, "apartment", 3, ["resident"], "apartment:" + slugs.apartment);
  }

  lemma DeviceHangs(s: Store, slugs: Slugs, all: seq<nat>)
    requires Built(s, slugs, all)
    ensures |all| == 8 && Stands(s, all[6], "device:" + slugs.device, all[5], [])
  {
    OtherRows();
    assert "device:" == "device" + ":";
    HungAt(s, slugs, all, 5, "device", 5, [], "device:" + slugs.device);
  }

  lemma PeerHangs(s: Store, slugs: Slugs, all: seq<nat>)
    requires Built(s, slugs, all)
    ensures |all| == 8 && Stands(s, all[7], "device:" + slugs.peer, all[5], [])
  {
    OtherRows();
    assert "device:" == "device" + ":";
    HungAt(s, slugs, all, 6, "device", 5, [], "device:" + slugs.peer);
  }

  lemma SiteIsBuilt(s: Store, slugs: Slugs, all: seq<nat>, b: Branch)
    requires Built(s, slugs, all) && all == Ids(b)
    ensures SiteStands(s, b, slugs)
  {
    SiteHangs(s, slugs, all);
    SiteCommonHangs(s, slugs, all);
    BuildingHangs(s, slugs, all);
    BuildingCommonHangs(s, slugs, all);
  }

  lemma ApartmentIsBuilt(s: Store, slugs: Slugs, all: seq<nat>, b: Branch)
    requires Built(s, slugs, all) && all == Ids(b)
    ensures ApartmentStands(s, b, slugs)
  {
    ApartmentHangs(s, slugs, all);
    DeviceHangs(s, slugs, all);
    PeerHangs(s, slugs, all);
  }

  // ---------------------------------------------------------------- eight nodes

  /** The name of a place of the branch, the portfolio's first. */
  ghost function PlaceName(plan: seq<Item>, k: nat): string
    requires |plan| == 7 && k < 8
  {
    if k == 0 then "portfolio" else plan[k - 1].spec.name
  }

  function KindAt(k: nat): Kind
    requires k < 8
  {
    if k == 0 then Portfolio else KINDS[k - 1]
  }

  function PlaceSlug(slugs: Slugs, k: nat): string
    requires k < 8
  {
    if k == 0 then "" else SlugAt(slugs, k - 1)
  }

  lemma PlaceIsNamed(slugs: Slugs, plan: seq<Item>, k: nat)
    requires Good(slugs) && plan == Plan(slugs) && k < 8
    ensures |plan| == 7 && ResourceName(KindAt(k), PlaceSlug(slugs, k)) == Ok(PlaceName(plan, k))
  {
    PlanIsNamed(slugs, if k == 0 then 0 else k - 1);
  }

  lemma PlacesOfOneKind(i: nat, j: nat)
    requires i < j < 8 && KindAt(i) == KindAt(j)
    ensures i == 6 && j == 7
  {
  }

  lemma PlaceNamesAreDistinct(slugs: Slugs, plan: seq<Item>, i: nat, j: nat)
    requires Good(slugs) && plan == Plan(slugs) && slugs.device != slugs.peer && i < j < 8
    ensures |plan| == 7 && PlaceName(plan, i) != PlaceName(plan, j)
  {
    PlaceIsNamed(slugs, plan, i);
    PlaceIsNamed(slugs, plan, j);
    if PlaceName(plan, i) == PlaceName(plan, j) {
      ResourceNamesAreInjective(KindAt(i), PlaceSlug(slugs, i), KindAt(j), PlaceSlug(slugs, j));
      PlacesOfOneKind(i, j);
    }
  }

  ghost predicate AllDistinct(all: seq<nat>) { forall i, j | 0 <= i < j < |all| :: all[i] != all[j] }

  lemma NodesAreDistinct(s: Store, slugs: Slugs, plan: seq<Item>, all: seq<nat>)
    requires Good(slugs) && plan == Plan(slugs) && |plan| == 7 && BranchBuilt(s, plan, 1, all) && |all| == 8
    requires slugs.device != slugs.peer && NodeFits(s, all[0], "portfolio", None)
    ensures AllDistinct(all)
  {
    forall i, j | 0 <= i < j < |all| ensures all[i] != all[j] {
      PlaceNamesAreDistinct(slugs, plan, i, j);
      assert NodeBuilt(s, plan[j - 1].spec, ParentId(plan[j - 1], all), all[1 + (j - 1)]);
      if i > 0 {
        assert NodeBuilt(s, plan[i - 1].spec, ParentId(plan[i - 1], all), all[1 + (i - 1)]);
      }
    }
  }

  lemma CompletedBuildIsTheFixture(op: NodeOp, s: Store, runs: seq<Luck>, last: Luck, slugs: Slugs, plan: seq<Item>,
                                   b: Branch)
    requires Builder(op) && Good(slugs) && plan == Plan(slugs) && Sound(s)
    requires BuildOnce(op, AfterBuilds(op, s, runs, plan), last, plan).result == Ok(Ids(b))
    ensures IsTheFixture(BuildOnce(op, AfterBuilds(op, s, runs, plan), last, plan).world.state, b, slugs)
    ensures slugs.device != slugs.peer ==> AllDistinct(Ids(b))
  {
    InterruptedBuildsConverge(op, s, runs, last, plan);
    var final := BuildOnce(op, AfterBuilds(op, s, runs, plan), last, plan).world.state;
    MatchesAreTheFits(s.resources, None, "portfolio");
    assert b.portfolio in Matches(s.resources, None, "portfolio");
    assert NodeFits(s, b.portfolio, "portfolio", None) && NodeFits(final, b.portfolio, "portfolio", None);
    EachRowIsHung(final, slugs, plan, Ids(b));
    if slugs.device != slugs.peer {
      NodesAreDistinct(final, slugs, plan, Ids(b));
    }
    SiteIsBuilt(final, slugs, Ids(b), b);
    ApartmentIsBuilt(final, slugs, Ids(b), b);
  }

  /**
   Once a build completes, after any interrupted ones, the branch it returns is the fixture: each of its
   nodes hangs where it is said to, under its own name, with its own role groups bound to it; the two devices
   being named apart, they are eight.
   */
  lemma CompletedBuildsAreTheFixture(s: Store, runs: seq<Luck>, last: Luck, slugs: Slugs, plan: seq<Item>, b: Branch)
    requires Good(slugs) && plan == Plan(slugs) && Sound(s)
    requires BuildOnce(EnsureInTenant, AfterBuilds(EnsureInTenant, s, runs, plan), last, plan).result == Ok(Ids(b))
    ensures var done := BuildOnce(EnsureInTenant, AfterBuilds(EnsureInTenant, s, runs, plan), last, plan);
            IsTheFixture(done.world.state, b, slugs)
    ensures slugs.device != slugs.peer ==> AllDistinct(Ids(b))
  {
    EnsureInTenantIsSafe();
    CompletedBuildIsTheFixture(EnsureInTenant, s, runs, last, slugs, plan, b);
  }
}
