/** One node where a group may hold a role at one scope only: when its bindings can be made. */
module TreeScopes {
  import opened Common
  import opened Remote
  import opened Tree
  import opened TreeRuns
  import opened TreeConvergence

  predicate SameHolder(a: Binding, b: Binding) { a.role == b.role && a.group == b.group }

  /** What the server's index keeps under the one-scope rule. */
  ghost predicate Indexed(s: Store) {
    && (forall b | b in s.bindings :: b.group < |s.groups|)
    && forall a, b | a in s.bindings && b in s.bindings && SameHolder(a, b) :: a == b
  }

  ghost predicate HeldBy(s: Store, b: Binding, held: Held) {
    b.role == held.role && Names(s, b.group, held.group)
  }

  /** If the group holds the role at all, it is at this node. */
  ghost predicate HeldFree(s: Store, held: Held, id: nat) {
    forall b | b in s.bindings && HeldBy(s, b, held) :: b.scope == id
  }

  ghost predicate SpecFree(s: Store, helds: seq<Held>, id: nat) {
    forall k | 0 <= k < |helds| :: HeldFree(s, helds[k], id)
  }

  // ---------------------------------------------------------------- one node

  lemma BindDecides(w: World<Store>, binding: Binding, n: nat)
    requires Clear(w.fates, 2 + n) && w.state.setting.scopes == OneScope && Indexed(w.state)
    requires binding.group < |w.state.groups|
    ensures var out := Bind(w, binding);
            && Indexed(out.world.state) && out.world.state.setting == w.state.setting
            && (out.result.Ok? <==> forall b | b in w.state.bindings && SameHolder(b, binding) ::
                  b.scope == binding.scope)
            && (out.result.Ok? ==> Clear(out.world.fates, n))
  {
    if b :| b in w.state.bindings && SameHolder(b, binding) {
      assert Refuses(w.state, binding);
      assert b.scope == binding.scope ==> b == binding;
    }
    if binding in w.state.bindings {
      assert SameHolder(binding, binding);
    }
  }

  lemma GroupAnswered(w: World<Store>, name: string, n: nat)
    requires Clear(w.fates, 2 + n) && Distinct(w.state.groups) && Indexed(w.state)
    ensures var out := ResolveGroup(w, name);
            && out.result.Ok? && Clear(out.world.fates, n) && Names(out.world.state, out.result.value, name)
            && out.world.state == w.state.(groups := out.world.state.groups) && Indexed(out.world.state)
            && forall b | b in w.state.bindings :: b.group == out.result.value <==> Names(w.state, b.group, name)
  {
    ResolveGroupGrows(w, name);
  }

  lemma GroupBindingDecides(w: World<Store>, held: Held, id: nat, n: nat)
    requires Clear(w.fates, 5 + n) && held.role in w.state.roles && w.state.setting.scopes == OneScope
    requires Distinct(w.state.groups) && Indexed(w.state)
    ensures var out := EnsureGroupBinding(w, held, id);
            && Indexed(out.world.state)
            && (out.result.Ok? <==> HeldFree(w.state, held, id))
            && (out.result.Ok? ==> Clear(out.world.fates, n))
  {
    GroupAnswered(w, held.group, 3 + n);
    var group := ResolveGroup(w, held.group);
    var lookup := Read(group.world);
    var binding := Binding(held.role, group.result.value, id);
    BindDecides(lookup.world, binding, n);
    assert forall b | b in w.state.bindings :: SameHolder(b, binding) <==> HeldBy(w.state, b, held);
  }

  /** Bindings made at this node free no group of it and take none. */
  lemma FreeStays(s: Store, s': Store, helds: seq<Held>, id: nat, held: Held)
    requires GroupsGrown(s, s', helds, id) && Indexed(s)
    ensures HeldFree(s', held, id) <==> HeldFree(s, held, id)
  {
    forall b | b in s.bindings ensures HeldBy(s', b, held) <==> HeldBy(s, b, held) {
    }
  }

  lemma {:induction false} GroupsDecide(w: World<Store>, helds: seq<Held>, id: nat, n: nat)
    requires Clear(w.fates, 5 * |helds| + n) && forall k | 0 <= k < |helds| :: helds[k].role in w.state.roles
    requires w.state.setting.scopes == OneScope && Distinct(w.state.groups) && Indexed(w.state)
    ensures var out := EnsureGroups(w, helds, id);
            && Indexed(out.world.state)
            && (out.result.Ok? <==> SpecFree(w.state, helds, id))
            && (out.result.Ok? ==> Clear(out.world.fates, n))
    decreases |helds|
  {
    if helds != [] {
      var rest := helds[1..];
      GroupBindingDecides(w, helds[0], id, 5 * |rest| + n);
      GroupBindingGrows(w, helds[0], id);
      var first := EnsureGroupBinding(w, helds[0], id);
      if first.result.Ok? {
        GroupsDecide(first.world, rest, id, n);
        forall k | 0 <= k < |rest|
          ensures HeldFree(first.world.state, rest[k], id) <==> HeldFree(w.state, helds[k + 1], id)
        {
          FreeStays(w.state, first.world.state, [helds[0]], id, rest[k]);
        }
      }
    }
  }

  /** The node an operation works on: the one there is, or the next to be made. */
  function NodeOf(s: Store, name: string, parent: Option<nat>): nat {
    if Matches(s.resources, parent, name) == [] then |s.resources| else Matches(s.resources, parent, name)[0]
  }

  /** The store once that node is there. */
  function Noded(w: World<Store>, spec: Spec, parent: Option<nat>): Store {
    ResolveOrCreate(w, spec, parent).world.state
  }

  lemma EnsureResourceDecides(w: World<Store>, spec: Spec, parent: Option<nat>, n: nat)
    requires Sound(w.state) && RolesExist(w.state, spec) && Clear(w.fates, 2 + 5 * |spec.helds| + n)
    requires w.state.setting.scopes == OneScope && Indexed(w.state)
    ensures var out := EnsureResource(w, spec, parent);
            var id := NodeOf(w.state, spec.name, parent);
            && Indexed(out.world.state) && NodeFits(Noded(w, spec, parent), id, spec.name, parent)
            && Extends(w.state, Noded(w, spec, parent)) && Sound(Noded(w, spec, parent))
            && Extends(Noded(w, spec, parent), out.world.state)
            && (out.result.Ok? <==> SpecFree(w.state, spec.helds, id))
            && (out.result.Ok? ==> out.result.value == id && Clear(out.world.fates, n))
  {
    AtMostOneMatch(w.state, spec.name, parent);
    ResolveOrCreateGrows(w, spec, parent);
    var node := ResolveOrCreate(w, spec, parent);
    GroupsDecide(node.world, spec.helds, node.result.value, n);
    GroupsGrow(node.world, spec.helds, node.result.value);
    forall k | 0 <= k < |spec.helds|
      ensures HeldFree(node.world.state, spec.helds[k], node.result.value) <==>
                HeldFree(w.state, spec.helds[k], node.result.value)
    {
    }
  }
}
