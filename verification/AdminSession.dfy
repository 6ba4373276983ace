/** The calls of `provision_tenant_admin` in their order, against the functions of `TenantAdmin`. */
module AdminSession {
  import opened Common
  import opened Remote
  import opened TenantAdmin
  import opened Rounds
  import opened AdminRuns

  method UserFor(client: Caller<State>, name: string, password: nat) returns (r: Result<nat, Stop>)
    modifies client
    ensures Step(client.Now(), r) == CreateOrFind(old(client.Now()), name, password)
  {
    if name !in NamesOf(client.state.users) {
      var id := |client.state.users|;
      var _ :- client.Do(client.state.(users := client.state.users + [User(name, password, false)]));
      return Ok(id);
    }
    var _ :- client.Do(client.state);
    var _ :- client.Do(client.state);
    var found := Found(client.state, name);
    r := if found.Some? then Ok(found.value) else Err(Missing);
  }

  /** Persist the credentials, create or find the user, activate it, and make it administrator. */
  method ProvisionTenantAdmin(client: Caller<State>, name: string) returns (r: Result<nat, Stop>)
    modifies client
    ensures Step(client.Now(), r) == Provision(old(client.Now()), name)
  {
    var password :- client.ReadOrMint(client.state.stored, Stored);
    var id :- UserFor(client, name, password);
    var _ :- client.Do(client.state.(users := Activated(client.state.users, id)));
    var _ :- client.Do(client.state);
    if !client.state.seeded {
      return Err(Missing);
    }
    var _ :- client.Do(client.state.(admins := client.state.admins + {id}));
    r := Ok(id);
  }

  /** Every tenant in turn, the session acting in it; the first failure ends the stage. */
  method RunStage(client: Caller<seq<State>>, names: seq<string>) returns (r: Result<(), Stop>)
    requires |names| == |client.state|
    modifies client
    ensures Step(client.Now(), r) == Round(Administer(names), old(client.Now()))
  {
    for i := 0 to |names|
      invariant |client.state| == |names|
      invariant EachFrom(Administer(names), client.Now(), i) == Round(Administer(names), old(client.Now()))
    {
      var acting := new Caller(Acting(client.Now(), i));
      var one := ProvisionTenantAdmin(acting, names[i]);
      client.state, client.fates, client.next := client.state[i := acting.state], acting.fates, acting.next;
      if one.Err? {
        return Err(one.error);
      }
    }
    r := Ok(());
  }
}
