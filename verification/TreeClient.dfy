/**
 The calls themselves, in the order the program makes them, against the functions of `Tree`; and the
 fixed branch of `stages/smoke.rs` built and resolved with them.
 */
module TreeClient {
  import opened Common
  import opened Remote
  import opened Naming
  import opened Tree

  lemma {:induction false} HeldAtEach(roles: seq<string>, name: string, k: nat)
    requires k < |roles|
    ensures |HeldAt(roles, name)| == |roles| && HeldAt(roles, name)[k] == Held(roles[k], roles[k] + "@" + name)
  {
    if k > 0 {
      HeldAtEach(roles[1..], name, k - 1);
    } else if |roles| > 1 {
      HeldAtEach(roles[1..], name, 0);
    }
  }

  lemma StructuralRolesAreSlugs(kind: Kind, k: nat)
    requires k < |StructuralGroupsFor(kind)|
    ensures ValidSlug(StructuralGroupsFor(kind)[k])
  {
  }

  /** What a node calls for are its kind's structural groups, under the names the naming scheme gives. */
  lemma SpecHoldsStructuralGroups(kind: Kind, slug: string, k: nat)
    requires SpecOf(kind, slug).Ok? && k < |StructuralGroupsFor(kind)|
    ensures |SpecOf(kind, slug).value.helds| == |StructuralGroupsFor(kind)|
    ensures var held := SpecOf(kind, slug).value.helds[k];
            held.role == StructuralGroupsFor(kind)[k] && GroupName(held.role, kind, slug) == Ok(held.group)
  {
    var role := StructuralGroupsFor(kind)[k];
    StructuralRolesAreSlugs(kind, k);
    SlugsCarryNoSeparator(role);
    HeldAtEach(StructuralGroupsFor(kind), ResourceName(kind, slug).value, k);
  }

  /** Of the naming scheme, a name determines what is called for. */
  lemma NamesDetermineSpecs(k1: Kind, s1: string, k2: Kind, s2: string)
    requires SpecOf(k1, s1).Ok? && SpecOf(k2, s2).Ok? && SpecOf(k1, s1).value.name == SpecOf(k2, s2).value.name
    ensures SpecOf(k1, s1) == SpecOf(k2, s2)
  {
    ResourceNamesAreInjective(k1, s1, k2, s2);
  }

  method GroupFor(client: Caller<Store>, name: string) returns (r: Result<nat, Stop>)
    modifies client
    ensures Step(client.Now(), r) == ResolveGroup(old(client.Now()), name)
  {
    var _ :- client.Do(client.state);
    if name in client.state.groups {
      return Ok(IndexOf(client.state.groups, name));
    }
    var id := |client.state.groups|;
    var created := client.Do(client.state.(groups := client.state.groups + [name]));
    if created.Ok? {
      return Ok(id);
    }
    if created.error == CutOff {
      return Err(CutOff);
    }
    var _ :- client.Do(client.state);
    r := if name in client.state.groups then Ok(IndexOf(client.state.groups, name)) else Err(CallFailed);
  }

  method BindRole(client: Caller<Store>, binding: Binding) returns (r: Result<(), Stop>)
    modifies client
    ensures Step(client.Now(), r) == Bind(old(client.Now()), binding)
  {
    var refused := Refuses(client.state, binding);
    r := client.Do(Assigned(client.state, binding));
    if r == Err(CutOff) || (r.Ok? && !refused) {
      return;
    }
    var _ :- client.Do(client.state);
    r := if binding in client.state.bindings then Ok(()) else Err(NotBound);
  }

  method BindGroup(client: Caller<Store>, role: string, kind: Kind, slug: string,
                   id: nat) returns (r: Result<string, Stop>)
    modifies client
    ensures GroupName(role, kind, slug).Err? ==> client.Now() == old(client.Now()) && r == Err(BadName)
    ensures GroupName(role, kind, slug).Ok? ==>
              Step(client.Now(), r) ==
              EnsureGroupBinding(old(client.Now()), Held(role, GroupName(role, kind, slug).value), id)
  {
    var name := GroupName(role, kind, slug);
    if name.Err? {
      return Err(BadName);
    }
    var group :- GroupFor(client, name.value);
    var _ :- client.Do(client.state);
    if role !in client.state.roles {
      return Err(Missing);
    }
    var _ :- BindRole(client, Binding(role, group, id));
    r := Ok(name.value);
  }

  method ResourceFor(client: Caller<Store>, spec: Spec, parent: Option<nat>) returns (r: Result<nat, Stop>)
    modifies client
    ensures Step(client.Now(), r) == ResolveOrCreate(old(client.Now()), spec, parent)
  {
    var _ :- client.Do(client.state);
    var found := Matches(client.state.resources, parent, spec.name);
    if |found| > 1 {
      return Err(Ambiguous);
    }
    if |found| == 1 {
      return Ok(found[0]);
    }
    var id := |client.state.resources|;
    var domoId := client.Draw();
    var made := Resource(spec.name, parent, domoId, spec.resourceType, client.state.setting.lands);
    var _ :- client.Do(client.state.(resources := client.state.resources + [made]));
    r := Ok(id);
  }

  /** The resource, then each of its kind's roles in turn. */
  method EnsureNode(client: Caller<Store>, kind: Kind, slug: string, parent: Option<nat>) returns (r: Result<nat, Stop>)
    modifies client
    ensures SpecOf(kind, slug).Err? ==> client.Now() == old(client.Now()) && r == Err(BadName)
    ensures SpecOf(kind, slug).Ok? ==>
              Step(client.Now(), r) == EnsureResource(old(client.Now()), SpecOf(kind, slug).value, parent)
  {
    var spec := SpecOf(kind, slug);
    if spec.Err? {
      return Err(BadName);
    }
    var id :- ResourceFor(client, spec.value, parent);
    var roles := StructuralGroupsFor(kind);
    ghost var helds, started := spec.value.helds, client.Now();
    if roles != [] {
      SpecHoldsStructuralGroups(kind, slug, 0);
    }
    for i := 0 to |roles|
      invariant |helds| == |roles|
      invariant EnsureGroups(client.Now(), helds[i..], id) == EnsureGroups(started, helds, id)
    {
      SpecHoldsStructuralGroups(kind, slug, i);
      assert helds[i..][0] == helds[i] && helds[i..][1..] == helds[i + 1..];
      var _ :- BindGroup(client, roles[i], kind, slug, id);
    }
    r := Ok(id);
  }

  method ExpectNode(client: Caller<Store>, kind: Kind, slug: string, parent: Option<nat>) returns (r: Result<nat, Stop>)
    modifies client
    ensures SpecOf(kind, slug).Err? ==> client.Now() == old(client.Now()) && r == Err(BadName)
    ensures SpecOf(kind, slug).Ok? ==>
              Step(client.Now(), r) == Expect(old(client.Now()), SpecOf(kind, slug).value, parent)
  {
    var spec := SpecOf(kind, slug);
    if spec.Err? {
      return Err(BadName);
    }
    var _ :- client.Do(client.state);
    var found := Matches(client.state.resources, parent, spec.value.name);
    if |found| == 1 {
      r := Ok(found[0]);
    } else if |found| == 0 {
      r := Err(Missing);
    } else {
      r := Err(Ambiguous);
    }
  }
}
