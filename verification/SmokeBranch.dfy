/** The fixture branch (`stages/smoke.rs`): built node by node, resolved without creating anything. */
module SmokeBranch {
  import opened Common
  import opened Naming
  import Text
  import opened Remote
  import opened Tree
  import opened TreeClient

  datatype Slugs = Slugs(site: string, common: string, building: string, apartment: string, device: string,
    peer: string)

  /** Both common areas share one slug and differ only by kind and parent. */
  const SMOKE := Slugs("smoke-park", "smoke-lobby", "smoke-tower", "smoke-tower-a1", "smoke-probe-light",
                       "smoke-peer-light")

  predicate Good(s: Slugs) {
    && ValidSlug(s.site) && ValidSlug(s.common) && ValidSlug(s.building)
    && ValidSlug(s.apartment) && ValidSlug(s.device) && ValidSlug(s.peer)
  }

  predicate Reserved(s: Slugs) {
    forall slug | slug in [s.site, s.common, s.building, s.apartment, s.device, s.peer] ::
      Text.StartsWith(slug, SMOKE_PREFIX)
  }

  /** The fixture's constants satisfy the naming scheme and carry the reserved prefix. */
  lemma SmokeIsGoodAndReserved()
    ensures Good(SMOKE) && Reserved(SMOKE) && SMOKE.device != SMOKE.peer
  {
  }

  datatype Branch = Branch(
    portfolio: nat, site: nat, siteCommon: nat, building: nat, buildingCommon: nat,
    apartment: nat, device: nat, peerDevice: nat)

  function Ids(b: Branch): seq<nat> {
    [b.portfolio, b.site, b.siteCommon, b.building, b.buildingCommon, b.apartment, b.device, b.peerDevice]
  }

  type Specs = (Kind, string) -> Spec

  /** The nodes of the branch, each with the place of its parent, the portfolio being place 0. */
  function PlanBy(specs: Specs, s: Slugs): (plan: seq<Item>)
    ensures ValidPlan(plan, 1)
  {
    [Item(specs(Site, s.site), Some(0)), Item(specs(SiteCommon, s.common), Some(1)),
     Item(specs(Building, s.building), Some(1)), Item(specs(BuildingCommon, s.common), Some(3)),
     Item(specs(Apartment, s.apartment), Some(3)), Item(specs(Device, s.device), Some(5)),
     Item(specs(Device, s.peer), Some(5))]
  }

  /** The specification the naming scheme gives; the last case is no node's. */
  function SpecIfNamed(kind: Kind, slug: string): Spec {
    match SpecOf(kind, slug)
    case Ok(spec) => spec
    case Err(_) => Spec("", "", [])
  }

  function Plan(s: Slugs): (plan: seq<Item>)
    ensures ValidPlan(plan, 1)
  {
    PlanBy(SpecIfNamed, s)
  }

  function Root(): Spec {
    Spec("portfolio", "portfolio", HeldAt(StructuralGroupsFor(Portfolio), "portfolio"))
  }

  /** The plan under the tenant's portfolio, which must be there once. */
  function UnderPortfolio(op: NodeOp, w: World<Store>, plan: seq<Item>): Step<Store, seq<nat>>
    requires ValidPlan(plan, 1)
  {
    var portfolio := Expect(w, Root(), None);
    if portfolio.result.Err? then Step(portfolio.world, Err(portfolio.result.error))
    else Walk(op, portfolio.world, plan, [portfolio.result.value])
  }

  /** Where a walk stands with `ids` taken. */
  ghost predicate At(op: NodeOp, whole: Step<Store, seq<nat>>, now: World<Store>, plan: seq<Item>, ids: seq<nat>) {
    && 1 <= |ids| <= |plan| + 1 && ValidPlan(plan[|ids| - 1..], |ids|)
    && whole == Walk(op, now, plan[|ids| - 1..], ids)
  }

  lemma WalkOne(op: NodeOp, whole: Step<Store, seq<nat>>, now: World<Store>, plan: seq<Item>, ids: seq<nat>)
    requires At(op, whole, now, plan, ids) && |ids| <= |plan|
    requires plan[|ids| - 1].under.Some? && plan[|ids| - 1].under.value < |ids|
    ensures var item := plan[|ids| - 1];
            var node := op(now, item.spec, Some(ids[item.under.value]));
            && (node.result.Err? ==> whole == Step(node.world, Err(node.result.error)))
            && (node.result.Ok? ==> At(op, whole, node.world, plan, ids + [node.result.value]))
  {
  }

  lemma WalkDone(op: NodeOp, whole: Step<Store, seq<nat>>, now: World<Store>, plan: seq<Item>, ids: seq<nat>)
    requires At(op, whole, now, plan, ids) && |ids| == |plan| + 1
    ensures whole == Step(now, Ok(ids))
  {
  }

  /** A name for `At` that keeps the walk folded up. */
  type Progress = (World<Store>, seq<nat>) -> bool

  ghost predicate Tracks(at: Progress, op: NodeOp, whole: Step<Store, seq<nat>>, plan: seq<Item>) {
    forall now, ids {:trigger At(op, whole, now, plan, ids)} :: at(now, ids) == At(op, whole, now, plan, ids)
  }

  ghost predicate Next(plan: seq<Item>, ids: seq<nat>, spec: Spec, parent: nat) {
    1 <= |ids| <= |plan| && plan[|ids| - 1].spec == spec && plan[|ids| - 1].under.Some? &&
    plan[|ids| - 1].under.value < |ids| && parent == ids[plan[|ids| - 1].under.value]
  }

  lemma TrackOne(at: Progress, op: NodeOp, whole: Step<Store, seq<nat>>, now: World<Store>, plan: seq<Item>,
                 ids: seq<nat>, spec: Spec, parent: nat)
    requires Tracks(at, op, whole, plan) && at(now, ids) && Next(plan, ids, spec, parent)
    ensures var node := op(now, spec, Some(parent));
            && (node.result.Err? ==> whole == Step(node.world, Err(node.result.error)))
            && (node.result.Ok? ==> at(node.world, ids + [node.result.value]))
  {
    assert At(op, whole, now, plan, ids);
    WalkOne(op, whole, now, plan, ids);
    var node := op(now, spec, Some(parent));
    if node.result.Ok? {
      assert At(op, whole, node.world, plan, ids + [node.result.value]);
    }
  }

  lemma TrackDone(at: Progress, op: NodeOp, whole: Step<Store, seq<nat>>, now: World<Store>, plan: seq<Item>,
                  ids: seq<nat>)
    requires Tracks(at, op, whole, plan) && at(now, ids) && |ids| == |plan| + 1
    ensures whole == Step(now, Ok(ids))
  {
    assert At(op, whole, now, plan, ids);
    WalkDone(op, whole, now, plan, ids);
  }

  /** How a walk's operation and specifications read as the program's own. */
  ghost predicate Reads(op: NodeOp, ensure: NodeOp, specs: Specs) {
    && (forall w, spec, parent {:trigger ensure(w, spec, parent)} :: op(w, spec, parent) == ensure(w, spec, parent))
    && (forall kind, slug {:trigger SpecOf(kind, slug)} :: ValidSlug(slug) ==>
          SpecOf(kind, slug) == Ok(specs(kind, slug)))
  }

  method ResolvePortfolio(client: Caller<Store>) returns (r: Result<nat, Stop>)
    modifies client
    ensures Step(client.Now(), r) == Expect(old(client.Now()), Root(), None)
  {
    r := TreeClient.ExpectNode(client, Portfolio, "", None);
  }

  /** What a node calls for: to be ensured and found in the acting tenant, or only to be there. */
  function OpOf(creates: bool): NodeOp { if creates then EnsureInTenant else Expect }

  /** One node, being the item of the plan that is next. */
  method Node(client: Caller<Store>, creates: bool, ghost op: NodeOp, ghost specs: Specs, ghost at: Progress,
              ghost whole: Step<Store, seq<nat>>, ghost plan: seq<Item>, ghost ids: seq<nat>,
              kind: Kind, slug: string, parent: nat)
    returns (r: Result<nat, Stop>)
    requires Reads(op, OpOf(creates), specs) && ValidSlug(slug)
    requires Tracks(at, op, whole, plan) && at(client.Now(), ids) && Next(plan, ids, specs(kind, slug), parent)
    modifies client
    ensures r.Err? ==> whole == Step(client.Now(), Err(r.error))
    ensures r.Ok? ==> at(client.Now(), ids + [r.value])
  {
    TrackOne(at, op, whole, client.Now(), plan, ids, specs(kind, slug), parent);
    ghost var now, spec := client.Now(), specs(kind, slug);
    assert op(now, spec, Some(parent)) == OpOf(creates)(now, spec, Some(parent));
    assert SpecOf(kind, slug) == Ok(spec);
    if !creates {
      r := ExpectNode(client, kind, slug, Some(parent));
      return;
    }
    var id :- EnsureNode(client, kind, slug, Some(parent));
    if !InTenant(client.state, id) {
      return Err(WrongTenant);
    }
    r := Ok(id);
  }

  /** The building's common area, the apartment and its two devices, the four nodes above them being done. */
  method InBuilding(client: Caller<Store>, creates: bool, ghost op: NodeOp, ghost specs: Specs, ghost at: Progress,
                    ghost whole: Step<Store, seq<nat>>, ghost above: seq<nat>, slugs: Slugs, building: nat)
    returns (r: Result<(nat, nat, nat, nat), Stop>)
    requires Reads(op, OpOf(creates), specs) && Good(slugs) && Tracks(at, op, whole, PlanBy(specs, slugs))
    requires |above| == 4 && above[3] == building && at(client.Now(), above)
    modifies client
    ensures r.Err? ==> whole == Step(client.Now(), Err(r.error))
    ensures r.Ok? ==> whole == Step(client.Now(), Ok(above + [r.value.0, r.value.1, r.value.2, r.value.3]))
  {
    ghost var plan, ids := PlanBy(specs, slugs), above;
    var common :- Node(client, creates, op, specs, at, whole, plan, ids, BuildingCommon, slugs.common, building);
    ids := ids + [common];
    var apartment :- Node(client, creates, op, specs, at, whole, plan, ids, Apartment, slugs.apartment, building);
    ids := ids + [apartment];
    var device :- Node(client, creates, op, specs, at, whole, plan, ids, Device, slugs.device, apartment);
    ids := ids + [device];
    var peer :- Node(client, creates, op, specs, at, whole, plan, ids, Device, slugs.peer, apartment);
    ids := ids + [peer];
    TrackDone(at, op, whole, client.Now(), plan, ids);
    assert ids == above + [common, apartment, device, peer];
    r := Ok((common, apartment, device, peer));
  }

  /** The branch node by node, parents before children; built or only resolved. */
  method Under(client: Caller<Store>, creates: bool, ghost op: NodeOp, ghost specs: Specs, ghost at: Progress,
               ghost whole: Step<Store, seq<nat>>, slugs: Slugs, portfolio: nat)
    returns (r: Result<Branch, Stop>)
    requires Reads(op, OpOf(creates), specs) && Good(slugs) && Tracks(at, op, whole, PlanBy(specs, slugs))
    requires at(client.Now(), [portfolio])
    modifies client
    ensures r.Err? ==> whole == Step(client.Now(), Err(r.error))
    ensures r.Ok? ==> whole == Step(client.Now(), Ok(Ids(r.value)))
  {
    ghost var plan, ids := PlanBy(specs, slugs), [portfolio];
    var site :- Node(client, creates, op, specs, at, whole, plan, ids, Site, slugs.site, portfolio);
    ids := ids + [site];
    var siteCommon :- Node(client, creates, op, specs, at, whole, plan, ids, SiteCommon, slugs.common, site);
    ids := ids + [siteCommon];
    var building :- Node(client, creates, op, specs, at, whole, plan, ids, Building, slugs.building, site);
    ids := ids + [building];
    var rest :- InBuilding(client, creates, op, specs, at, whole, ids, slugs, building);
    r := Ok(Branch(portfolio, site, siteCommon, building, rest.0, rest.1, rest.2, rest.3));
    assert ids + [rest.0, rest.1, rest.2, rest.3] == Ids(r.value);
  }

  /** Builds the branch: every node resolved first and created only if absent. */
  method Build(client: Caller<Store>, slugs: Slugs) returns (r: Result<Branch, Stop>)
    requires Good(slugs)
    modifies client
    ensures var whole := UnderPortfolio(EnsureInTenant, old(client.Now()), Plan(slugs));
            && whole.world == client.Now()
            && whole.result == (if r.Ok? then Ok(Ids(r.value)) else Err(r.error))
  {
    ghost var whole := UnderPortfolio(EnsureInTenant, client.Now(), Plan(slugs));
    var portfolio :- ResolvePortfolio(client);
    assert Plan(slugs)[0..] == Plan(slugs);
    ghost var at := (now: World<Store>, ids: seq<nat>) => At(EnsureInTenant, whole, now, Plan(slugs), ids);
    r := Under(client, true, EnsureInTenant, SpecIfNamed, at, whole, slugs, portfolio);
  }

  /** The read-only twin of `Build`. */
  method Resolve(client: Caller<Store>, slugs: Slugs) returns (r: Result<Branch, Stop>)
    requires Good(slugs)
    modifies client
    ensures var whole := UnderPortfolio(Expect, old(client.Now()), Plan(slugs));
            && whole.world == client.Now()
            && whole.result == (if r.Ok? then Ok(Ids(r.value)) else Err(r.error))
  {
    ghost var whole := UnderPortfolio(Expect, client.Now(), Plan(slugs));
    var portfolio :- ResolvePortfolio(client);
    assert Plan(slugs)[0..] == Plan(slugs);
    ghost var at := (now: World<Store>, ids: seq<nat>) => At(Expect, whole, now, Plan(slugs), ids);
    r := Under(client, false, Expect, SpecIfNamed, at, whole, slugs, portfolio);
  }
}
