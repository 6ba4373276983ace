/** What a created node is stamped with (`ensure_resource` in `stages/tree.rs`): its stable identifier and its type. */
module TreeStamps {
  import opened Common
  import opened Naming
  import opened Remote
  import opened Tree
  import opened TreeRuns
  import opened TreeConvergence

  // ---------------------------------------------------------------- the stable identifier

  /** Identifiers drawn from `next` on are new to the store. */
  ghost predicate FreshFrom(s: Store, next: nat) { forall r | r in s.resources :: r.domoId < next }

  /** The resources from place `n` on are stamped within these values, each with its own. */
  ghost predicate StampedWithin(s: Store, n: nat, from: nat, to: nat) {
    && (forall i | n <= i < |s.resources| :: from <= s.resources[i].domoId < to)
    && forall i, j | n <= i < |s.resources| && n <= j < |s.resources| && i != j ::
        s.resources[i].domoId != s.resources[j].domoId
  }

  /**
   What a stretch of calls leaves: old nodes as they were, new ones stamped with values it drew, and
   fresh values left.
   */
  ghost predicate Stamps(w: World<Store>, v: World<Store>) {
    && w.state.resources <= v.state.resources && w.next <= v.next && FreshFrom(v.state, v.next)
    && StampedWithin(v.state, |w.state.resources|, w.next, v.next)
  }

  /** So does the operation, from any store to which its values are new. */
  ghost predicate Stamper(op: NodeOp) {
    forall w: World<Store>, spec, parent :: FreshFrom(w.state, w.next) ==> Stamps(w, op(w, spec, parent).world)
  }

  lemma SameResourcesStamp(w: World<Store>, v: World<Store>)
    requires FreshFrom(w.state, w.next) && v.state.resources == w.state.resources && v.next == w.next
    ensures Stamps(w, v)
  {
  }

  lemma StampsOn(w: World<Store>, v: World<Store>, u: World<Store>)
    requires Stamps(w, v) && Stamps(v, u)
    ensures Stamps(w, u)
  {
    var n, m, now := |w.state.resources|, |v.state.resources|, u.state.resources;
    forall i | n <= i < m ensures now[i] == v.state.resources[i] {
    }
    forall i, j | n <= i < |now| && n <= j < |now| && i != j ensures now[i].domoId != now[j].domoId {
      if i < m {
        assert v.state.resources[i] in v.state.resources;
      }
      if j < m {
        assert v.state.resources[j] in v.state.resources;
      }
    }
  }

  lemma ResolveOrCreateStamps(w: World<Store>, spec: Spec, parent: Option<nat>)
    requires FreshFrom(w.state, w.next)
    ensures Stamps(w, ResolveOrCreate(w, spec, parent).world)
  {
  }

  /** Groups and bindings draw no value and make no node. */
  ghost predicate MakesNoNode(w: World<Store>, v: World<Store>) {
    v.next == w.next && v.state.resources == w.state.resources && v.state.setting == w.state.setting
  }

  lemma ResolveGroupMakesNoNode(w: World<Store>, name: string)
    ensures MakesNoNode(w, ResolveGroup(w, name).world)
  {
  }

  lemma BindMakesNoNode(w: World<Store>, binding: Binding)
    ensures MakesNoNode(w, Bind(w, binding).world)
  {
  }

  lemma GroupBindingMakesNoNode(w: World<Store>, held: Held, id: nat)
    ensures MakesNoNode(w, EnsureGroupBinding(w, held, id).world)
  {
    ResolveGroupMakesNoNode(w, held.group);
    var group := ResolveGroup(w, held.group);
    if group.result.Ok? {
      BindMakesNoNode(Read(group.world).world, Binding(held.role, group.result.value, id));
    }
  }

  lemma {:induction false} GroupsMakeNoNode(w: World<Store>, helds: seq<Held>, id: nat)
    ensures MakesNoNode(w, EnsureGroups(w, helds, id).world)
    decreases |helds|
  {
    if helds != [] {
      GroupBindingMakesNoNode(w, helds[0], id);
      var first := EnsureGroupBinding(w, helds[0], id);
      if first.result.Ok? {
        GroupsMakeNoNode(first.world, helds[1..], id);
      }
    }
  }

  lemma EnsureResourceStamps(w: World<Store>, spec: Spec, parent: Option<nat>)
    requires FreshFrom(w.state, w.next)
    ensures Stamps(w, EnsureResource(w, spec, parent).world)
  {
    ResolveOrCreateStamps(w, spec, parent);
    var node := ResolveOrCreate(w, spec, parent);
    if node.result.Ok? {
      GroupsMakeNoNode(node.world, spec.helds, node.result.value);
      SameResourcesStamp(node.world, EnsureGroups(node.world, spec.helds, node.result.value).world);
      StampsOn(w, node.world, EnsureGroups(node.world, spec.helds, node.result.value).world);
    }
  }

  lemma BothStamp()
    ensures Stamper(EnsureResource) && Stamper(EnsureInTenant)
  {
    forall w: World<Store>, spec, parent | FreshFrom(w.state, w.next)
      ensures Stamps(w, EnsureResource(w, spec, parent).world) && Stamps(w, EnsureInTenant(w, spec, parent).world)
    {
      EnsureResourceStamps(w, spec, parent);
    }
  }

  lemma {:induction false} WalkStamps(op: NodeOp, w: World<Store>, plan: seq<Item>, ids: seq<nat>)
    requires Stamper(op) && FreshFrom(w.state, w.next) && ValidPlan(plan, |ids|)
    ensures Stamps(w, Walk(op, w, plan, ids).world)
    decreases |plan|
  {
    if plan == [] {
      SameResourcesStamp(w, w);
    } else {
      var node := op(w, plan[0].spec, ParentId(plan[0], ids));
      assert Stamps(w, node.world);
      if node.result.Ok? {
        WalkStamps(op, node.world, plan[1..], ids + [node.result.value]);
        StampsOn(w, node.world, Walk(op, node.world, plan[1..], ids + [node.result.value]).world);
      }
    }
  }

  // ---------------------------------------------------------------- what else is recorded

  /** New nodes are recorded as called for, in the tenant where creations land. */
  ghost predicate Recorded(s: Store, s': Store, spec: Spec) {
    && s.resources <= s'.resources && s'.setting == s.setting
    && forall i | |s.resources| <= i < |s'.resources| ::
        var r := s'.resources[i];
        r.name == spec.name && r.resourceType == spec.resourceType && r.tenant == s.setting.lands
  }

  ghost predicate Recorder(op: NodeOp) {
    forall w: World<Store>, spec, parent :: Recorded(w.state, op(w, spec, parent).world.state, spec)
  }

  lemma ResolveOrCreateRecords(w: World<Store>, spec: Spec, parent: Option<nat>)
    ensures Recorded(w.state, ResolveOrCreate(w, spec, parent).world.state, spec)
  {
  }

  lemma EnsureResourceRecords(w: World<Store>, spec: Spec, parent: Option<nat>)
    ensures Recorded(w.state, EnsureResource(w, spec, parent).world.state, spec)
  {
    ResolveOrCreateRecords(w, spec, parent);
    var node := ResolveOrCreate(w, spec, parent);
    if node.result.Ok? {
      GroupsMakeNoNode(node.world, spec.helds, node.result.value);
    }
  }

  lemma BothRecord()
    ensures Recorder(EnsureResource) && Recorder(EnsureInTenant)
  {
    forall w: World<Store>, spec, parent
      ensures Recorded(w.state, EnsureResource(w, spec, parent).world.state, spec)
      ensures Recorded(w.state, EnsureInTenant(w, spec, parent).world.state, spec)
    {
      EnsureResourceRecords(w, spec, parent);
    }
  }

  /** A name up to its first colon, all of it if it has none. */
  function BeforeColon(name: string): string {
    if name == "" || name[0] == ':' then "" else [name[0]] + BeforeColon(name[1..])
  }

  lemma {:induction false} BeforeTheFirstColon(head: string, tail: string)
    requires ':' !in head
    ensures BeforeColon(head + [':'] + tail) == head && BeforeColon(head) == head
  {
    var name := head + [':'] + tail;
    if head == "" {
      assert name[0] == ':';
    } else {
      assert name[1..] == head[1..] + [':'] + tail;
      BeforeTheFirstColon(head[1..], tail);
    }
  }

  /** The node's type is what its name says it is. */
  predicate TypedByName(r: Resource) { r.resourceType == BeforeColon(r.name) }

  ghost predicate PlanTyped(plan: seq<Item>) {
    forall k | 0 <= k < |plan| :: plan[k].spec.resourceType == BeforeColon(plan[k].spec.name)
  }

  lemma CommonIsTyped(where: string, slug: string, name: string)
    requires name == "common:" + where + ":" + slug
    ensures BeforeColon(name) == "common"
  {
    BeforeTheFirstColon("common", where + ":" + slug);
    assert name == "common" + [':'] + (where + ":" + slug);
  }

  lemma NoColonInTypes(kind: Kind)
    ensures ':' !in ResourceType(kind)
  {
  }

  lemma PlainNameIsTyped(kind: Kind, slug: string, name: string)
    requires kind != SiteCommon && kind != BuildingCommon && ResourceName(kind, slug) == Ok(name)
    ensures BeforeColon(name) == ResourceType(kind)
  {
    var head := ResourceType(kind);
    NoColonInTypes(kind);
    BeforeTheFirstColon(head, slug);
    assert Prefix(kind) == head;
    assert name == head || name == head + [':'] + slug;
  }

  lemma CommonNameIsTyped(kind: Kind, slug: string, name: string)
    requires (kind == SiteCommon || kind == BuildingCommon) && ResourceName(kind, slug) == Ok(name)
    ensures BeforeColon(name) == ResourceType(kind)
  {
    CommonIsTyped(if kind == SiteCommon then "site" else "building", slug, name);
  }

  lemma SpecIsTyped(kind: Kind, slug: string, spec: Spec)
    requires SpecOf(kind, slug) == Ok(spec)
    ensures spec.resourceType == BeforeColon(spec.name)
  {
    if kind == SiteCommon || kind == BuildingCommon {
      CommonNameIsTyped(kind, slug, spec.name);
    } else {
      PlainNameIsTyped(kind, slug, spec.name);
    }
  }

  /** Every node that was not there is typed by its name and lies where creations land. */
  ghost predicate NewAreTyped(s: Store, s': Store) {
    && s.resources <= s'.resources && s'.setting == s.setting
    && forall i | |s.resources| <= i < |s'.resources| ::
        TypedByName(s'.resources[i]) && s'.resources[i].tenant == s.setting.lands
  }

  lemma {:induction false} WalkTypes(op: NodeOp, w: World<Store>, plan: seq<Item>, ids: seq<nat>)
    requires Recorder(op) && PlanTyped(plan) && ValidPlan(plan, |ids|)
    ensures NewAreTyped(w.state, Walk(op, w, plan, ids).world.state)
    decreases |plan|
  {
    if plan != [] {
      var node := op(w, plan[0].spec, ParentId(plan[0], ids));
      assert Recorded(w.state, node.world.state, plan[0].spec);
      if node.result.Ok? {
        WalkTypes(op, node.world, plan[1..], ids + [node.result.value]);
      }
    }
  }

  // ---------------------------------------------------------------- histories

  /** One run, by the store it finds and its luck. */
  type Runner = (Store, Luck) -> Step<Store, seq<nat>>

  function After(run: Runner, s: Store, runs: seq<Luck>): Store
    decreases |runs|
  {
    if runs == [] then s else After(run, run(s, runs[0]).world.state, runs[1..])
  }

  ghost predicate StampsRun(run: Runner, s: Store, luck: Luck) {
    FreshFrom(s, luck.next) ==> Stamps(World(s, luck.fates, luck.next), run(s, luck).world)
  }

  ghost predicate TypesRun(run: Runner, s: Store, luck: Luck) { NewAreTyped(s, run(s, luck).world.state) }

  ghost predicate Marks(run: Runner) {
    forall s: Store, luck: Luck :: StampsRun(run, s, luck) && TypesRun(run, s, luck)
  }

  /** Each run draws values that are new to the store it finds. */
  ghost predicate FreshHistory(run: Runner, s: Store, runs: seq<Luck>)
    decreases |runs|
  {
    runs != [] ==> FreshFrom(s, runs[0].next) && FreshHistory(run, run(s, runs[0]).world.state, runs[1..])
  }

  /** Every node that was not there has an identifier of its own, shared with no other node, old or new. */
  ghost predicate StampedApart(s: Store, s': Store) {
    && s.resources <= s'.resources
    && forall i, j | |s.resources| <= i < |s'.resources| && 0 <= j < |s'.resources| && i != j ::
        s'.resources[i].domoId != s'.resources[j].domoId
  }

  lemma StampsAreApart(w: World<Store>, v: World<Store>)
    requires FreshFrom(w.state, w.next) && Stamps(w, v)
    ensures StampedApart(w.state, v.state)
  {
    var n, now := |w.state.resources|, v.state.resources;
    forall i, j | n <= i < |now| && 0 <= j < |now| && i != j ensures now[i].domoId != now[j].domoId {
      if j < n {
        assert now[j] == w.state.resources[j] && w.state.resources[j] in w.state.resources;
      }
    }
  }

  lemma ApartOn(a: Store, b: Store, c: Store)
    requires StampedApart(a, b) && StampedApart(b, c)
    ensures StampedApart(a, c)
  {
    var n, m, now := |a.resources|, |b.resources|, c.resources;
    forall i, j | n <= i < |now| && 0 <= j < |now| && i != j ensures now[i].domoId != now[j].domoId {
      if i < m && j < m {
        assert now[i] == b.resources[i] && now[j] == b.resources[j];
      } else if i < m {
        assert now[j].domoId != now[i].domoId;
      }
    }
  }

  /**
   Over every history of runs with fresh values, cut off anywhere: each node created has an identifier
   that no other node has, old or new; its type is its name up to the first colon; and it lies in the
   tenant where creations land.
   */
  lemma {:induction false} HistoriesMark(run: Runner, s: Store, runs: seq<Luck>)
    requires Marks(run) && FreshHistory(run, s, runs)
    ensures StampedApart(s, After(run, s, runs)) && NewAreTyped(s, After(run, s, runs))
    decreases |runs|
  {
    if runs != [] {
      var next := run(s, runs[0]).world.state;
      assert StampsRun(run, s, runs[0]) && TypesRun(run, s, runs[0]);
      StampsAreApart(World(s, runs[0].fates, runs[0].next), run(s, runs[0]).world);
      HistoriesMark(run, next, runs[1..]);
      ApartOn(s, next, After(run, next, runs[1..]));
    }
  }

  lemma {:induction false} HistorySplits(run: Runner, s: Store, runs: seq<Luck>, j: nat)
    requires FreshHistory(run, s, runs) && j < |runs|
    ensures FreshFrom(After(run, s, runs[..j]), runs[j].next)
    ensures After(run, s, runs[..j + 1]) == run(After(run, s, runs[..j]), runs[j]).world.state
    decreases |runs|
  {
    if j == 0 {
      assert runs[..1] == [runs[0]] && runs[..0] == [] && [runs[0]][1..] == [];
    } else {
      HistorySplits(run, run(s, runs[0]).world.state, runs[1..], j - 1);
      assert runs[..j][1..] == runs[1..][..j - 1] && runs[..j + 1][1..] == runs[1..][..j];
    }
  }

  /** And the identifier is among the values drawn by the very run that created the node. */
  lemma EachRunDrawsItsStamps(run: Runner, s: Store, runs: seq<Luck>, j: nat)
    requires Marks(run) && FreshHistory(run, s, runs) && j < |runs|
    ensures var before, after := After(run, s, runs[..j]), After(run, s, runs[..j + 1]);
            && before.resources <= after.resources
            && StampedWithin(after, |before.resources|, runs[j].next, run(before, runs[j]).world.next)
  {
    HistorySplits(run, s, runs, j);
    assert StampsRun(run, After(run, s, runs[..j]), runs[j]);
  }

  // ---------------------------------------------------------------- runs of a plan

  function PlanRunner(op: NodeOp, plan: seq<Item>, ids: seq<nat>): Runner
    requires ValidPlan(plan, |ids|)
  {
    (s: Store, luck: Luck) => Attempt(op, s, luck, plan, ids)
  }

  lemma PlanRunsMark(op: NodeOp, plan: seq<Item>, ids: seq<nat>)
    requires Stamper(op) && Recorder(op) && PlanTyped(plan) && ValidPlan(plan, |ids|)
    ensures Marks(PlanRunner(op, plan, ids))
  {
    var run := PlanRunner(op, plan, ids);
    forall s: Store, luck: Luck ensures StampsRun(run, s, luck) && TypesRun(run, s, luck) {
      WalkTypes(op, World(s, luck.fates, luck.next), plan, ids);
      if FreshFrom(s, luck.next) {
        WalkStamps(op, World(s, luck.fates, luck.next), plan, ids);
      }
    }
  }

  lemma {:induction false} PlanHistories(op: NodeOp, plan: seq<Item>, ids: seq<nat>, s: Store, runs: seq<Luck>)
    requires ValidPlan(plan, |ids|)
    ensures After(PlanRunner(op, plan, ids), s, runs) == AfterRuns(op, s, runs, plan, ids)
    decreases |runs|
  {
    if runs != [] {
      PlanHistories(op, plan, ids, Attempt(op, s, runs[0], plan, ids).world.state, runs[1..]);
    }
  }

  /** The same of every history of runs over any plan of the naming scheme. */
  lemma PlannedNodesAreMarked(plan: seq<Item>, ids: seq<nat>, s: Store, runs: seq<Luck>)
    requires ValidPlan(plan, |ids|)
    requires forall k | 0 <= k < |plan| :: exists kind, slug :: SpecOf(kind, slug) == Ok(plan[k].spec)
    requires FreshHistory(PlanRunner(EnsureResource, plan, ids), s, runs)
    ensures var now := AfterRuns(EnsureResource, s, runs, plan, ids);
            StampedApart(s, now) && NewAreTyped(s, now)
  {
    BothStamp();
    BothRecord();
    forall k | 0 <= k < |plan| ensures plan[k].spec.resourceType == BeforeColon(plan[k].spec.name) {
      var kind, slug :| SpecOf(kind, slug) == Ok(plan[k].spec);
      SpecIsTyped(kind, slug, plan[k].spec);
    }
    PlanRunsMark(EnsureResource, plan, ids);
    HistoriesMark(PlanRunner(EnsureResource, plan, ids), s, runs);
    PlanHistories(EnsureResource, plan, ids, s, runs);
  }
}
