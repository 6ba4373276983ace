/**
 Building a resource branch by remote calls (`tools/domo-bootstrap/src/stages/tree.rs` and
 `stages/smoke.rs`). The server is a store; every call meets a fate, and a run ends where the fates do.
 */
module Tree {
  import opened Common
  import opened Naming
  import opened Remote

  /** A resource's id is its place in the store; `domoId` is the stable identifier stamped on creation. */
  datatype Resource = Resource(name: string, parent: Option<nat>, domoId: nat, resourceType: string, tenant: nat)

  /** A role bound to a group, scoped to one resource. */
  datatype Binding = Binding(role: string, group: nat, scope: nat)

  /** What no call changes: the server's rule, the tenant the client acts in, and the one its creations land in. */
  datatype Setting = Setting(scopes: ScopeRule, acting: nat, lands: nat)

  datatype Store = Store(
    resources: seq<Resource>, groups: seq<string>, bindings: set<Binding>, roles: set<string>,
    members: set<(nat, nat)>, setting: Setting)

  /** A call that only reads. */
  function Read(w: World<Store>): Step<Store, ()> { Call(w, w.state, ()) }

  predicate Fits(r: Resource, parent: Option<nat>, name: string) { r.parent == parent && r.name == name }

  /** The children of `parent` with this name, in the order of the listing. */
  function Matches(resources: seq<Resource>, parent: Option<nat>, name: string): seq<nat> {
    if resources == [] then []
    else
      var n := |resources| - 1;
      Matches(resources[..n], parent, name) + (if Fits(resources[n], parent, name) then [n] else [])
  }

  function IndexOf(groups: seq<string>, name: string): (k: nat)
    requires name in groups
    ensures k < |groups| && groups[k] == name
  {
    if groups[0] == name then 0 else IndexOf(groups[1..], name) + 1
  }

  // ---------------------------------------------------------------- one group

  function CreateGroup(w: World<Store>, name: string): Step<Store, nat> {
    var create := Call(w, w.state.(groups := w.state.groups + [name]), |w.state.groups|);
    if create.result.Ok? || create.result.error == CutOff then create
    else
      var again := Read(create.world);
      if again.result.Err? then Step(again.world, Err(again.result.error))
      else if name in create.world.state.groups then Step(again.world, Ok(IndexOf(create.world.state.groups, name)))
      else Step(again.world, Err(CallFailed))
  }

  /** Search, else create, else (the create having failed) search again. */
  function ResolveGroup(w: World<Store>, name: string): Step<Store, nat> {
    var search := Read(w);
    if search.result.Err? then Step(search.world, Err(search.result.error))
    else if name in w.state.groups then Step(search.world, Ok(IndexOf(w.state.groups, name)))
    else CreateGroup(search.world, name)
  }

  predicate Refuses(s: Store, binding: Binding) {
    match s.setting.scopes
    case NoUniqueness => false
    case ManyScopes => binding in s.bindings
    case OneScope => exists b | b in s.bindings :: b.role == binding.role && b.group == binding.group
  }

  /** The store after the server has taken the request to bind. */
  function Assigned(s: Store, binding: Binding): Store {
    if Refuses(s, binding) then s else s.(bindings := s.bindings + {binding})
  }

  /** Whatever fails, a refusal or the call, is checked against the listing of bindings. */
  function Bind(w: World<Store>, binding: Binding): Step<Store, ()> {
    var assign := Call(w, Assigned(w.state, binding), ());
    if assign.result == Err(CutOff) || (assign.result.Ok? && !Refuses(w.state, binding)) then assign
    else
      var listing := Read(assign.world);
      if listing.result.Err? then Step(listing.world, Err(listing.result.error))
      else Step(listing.world, if binding in assign.world.state.bindings then Ok(()) else Err(NotBound))
  }

  /** A role and the group that is to hold it. */
  datatype Held = Held(role: string, group: string)

  function EnsureGroupBinding(w: World<Store>, held: Held, id: nat): Step<Store, string> {
    var group := ResolveGroup(w, held.group);
    if group.result.Err? then Step(group.world, Err(group.result.error))
    else
      var lookup := Read(group.world);
      if lookup.result.Err? then Step(lookup.world, Err(lookup.result.error))
      else if held.role !in w.state.roles then Step(lookup.world, Err(Missing))
      else
        var bound := Bind(lookup.world, Binding(held.role, group.result.value, id));
        Step(bound.world, if bound.result.Ok? then Ok(held.group) else Err(bound.result.error))
  }

  function EnsureGroups(w: World<Store>, helds: seq<Held>, id: nat): Step<Store, nat>
    decreases |helds|
  {
    if helds == [] then Step(w, Ok(id))
    else
      var first := EnsureGroupBinding(w, helds[0], id);
      if first.result.Err? then Step(first.world, Err(first.result.error))
      else EnsureGroups(first.world, helds[1..], id)
  }

  // ---------------------------------------------------------------- one resource

  /** What a kind and a slug call for: the name, the type and the role groups. */
  datatype Spec = Spec(name: string, resourceType: string, helds: seq<Held>)

  function HeldAt(roles: seq<string>, name: string): seq<Held> {
    if roles == [] then [] else [Held(roles[0], roles[0] + "@" + name)] + HeldAt(roles[1..], name)
  }

  function SpecOf(kind: Kind, slug: string): Result<Spec, NameError> {
    match ResourceName(kind, slug)
    case Err(e) => Err(e)
    case Ok(name) => Ok(Spec(name, ResourceType(kind), HeldAt(StructuralGroupsFor(kind), name)))
  }

  function CreateResource(w: World<Store>, spec: Spec, parent: Option<nat>): Step<Store, nat> {
    var made := Resource(spec.name, parent, w.next, spec.resourceType, w.state.setting.lands);
    Call(w.(next := w.next + 1), w.state.(resources := w.state.resources + [made]), |w.state.resources|)
  }

  /** Resolve by name under the parent, refuse two, create if there is none. */
  function ResolveOrCreate(w: World<Store>, spec: Spec, parent: Option<nat>): Step<Store, nat> {
    var listing := Read(w);
    var found := Matches(w.state.resources, parent, spec.name);
    if listing.result.Err? then Step(listing.world, Err(listing.result.error))
    else if |found| > 1 then Step(listing.world, Err(Ambiguous))
    else if |found| == 1 then Step(listing.world, Ok(found[0]))
    else CreateResource(listing.world, spec, parent)
  }

  function EnsureResource(w: World<Store>, spec: Spec, parent: Option<nat>): Step<Store, nat> {
    var node := ResolveOrCreate(w, spec, parent);
    if node.result.Err? then node else EnsureGroups(node.world, spec.helds, node.result.value)
  }

  predicate InTenant(s: Store, id: nat) { id < |s.resources| && s.resources[id].tenant == s.setting.acting }

  /** The answer, provided the node landed in the tenant the client acts in. */
  function Checked(node: Step<Store, nat>): Step<Store, nat> {
    if node.result.Ok? && !InTenant(node.world.state, node.result.value) then Step(node.world, Err(WrongTenant))
    else node
  }

  function EnsureInTenant(w: World<Store>, spec: Spec, parent: Option<nat>): Step<Store, nat> {
    Checked(EnsureResource(w, spec, parent))
  }

  /** The one child of `parent` with this name; creates nothing. */
  function Expect(w: World<Store>, spec: Spec, parent: Option<nat>): Step<Store, nat> {
    var listing := Read(w);
    var found := Matches(w.state.resources, parent, spec.name);
    if listing.result.Err? then Step(listing.world, Err(listing.result.error))
    else Step(listing.world,
              if |found| == 1 then Ok(found[0]) else if found == [] then Err(Missing) else Err(Ambiguous))
  }

  // ---------------------------------------------------------------- a branch

  /** One node of a branch: its parent is an earlier one, by its place in the branch, or none. */
  datatype Item = Item(spec: Spec, under: Option<nat>)

  predicate ValidPlan(plan: seq<Item>, known: nat) {
    forall k | 0 <= k < |plan| :: plan[k].under.Some? ==> plan[k].under.value < known + k
  }

  function ParentId(item: Item, ids: seq<nat>): Option<nat>
    requires item.under.Some? ==> item.under.value < |ids|
  {
    if item.under.None? then None else Some(ids[item.under.value])
  }

  type NodeOp = (World<Store>, Spec, Option<nat>) -> Step<Store, nat>

  /** Takes the plan's nodes in order, stopping at the first that fails; `ids` are those taken so far. */
  function Walk(op: NodeOp, w: World<Store>, plan: seq<Item>, ids: seq<nat>): Step<Store, seq<nat>>
    requires ValidPlan(plan, |ids|)
    decreases |plan|
  {
    if plan == [] then Step(w, Ok(ids))
    else
      var node := op(w, plan[0].spec, ParentId(plan[0], ids));
      if node.result.Err? then Step(node.world, Err(node.result.error))
      else Walk(op, node.world, plan[1..], ids + [node.result.value])
  }

  function BuildPlan(w: World<Store>, plan: seq<Item>, ids: seq<nat>): Step<Store, seq<nat>>
    requires ValidPlan(plan, |ids|)
  {
    Walk(EnsureResource, w, plan, ids)
  }

  function ResolvePlan(w: World<Store>, plan: seq<Item>, ids: seq<nat>): Step<Store, seq<nat>>
    requires ValidPlan(plan, |ids|)
  {
    Walk(Expect, w, plan, ids)
  }

  /** One run's luck: the fates of its calls and where its fresh identifiers start. */
  datatype Luck = Luck(fates: seq<Fate>, next: nat)

  function Attempt(op: NodeOp, s: Store, luck: Luck, plan: seq<Item>, ids: seq<nat>): Step<Store, seq<nat>>
    requires ValidPlan(plan, |ids|)
  {
    Walk(op, World(s, luck.fates, luck.next), plan, ids)
  }

  /** The store after a number of runs, each ending wherever it did. */
  function AfterRuns(op: NodeOp, s: Store, runs: seq<Luck>, plan: seq<Item>, ids: seq<nat>): Store
    requires ValidPlan(plan, |ids|)
    decreases |runs|
  {
    if runs == [] then s
    else AfterRuns(op, Attempt(op, s, runs[0], plan, ids).world.state, runs[1..], plan, ids)
  }
}
