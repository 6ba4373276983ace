/** The calls of `service_certs.rs` in their order, against the functions of `ServiceCerts`. */
module ServiceClient {
  import opened Common
  import opened Remote
  import opened Rounds
  import opened ServiceCerts
  import opened ServiceRounds

  method AccountOf(client: Caller<State>, name: string) returns (r: Result<nat, Stop>)
    modifies client
    ensures Step(client.Now(), r) == EnsureAccount(old(client.Now()), name)
  {
    var _ :- client.Do(client.state);
    var found := FindAccount(client.state.accounts, name);
    if found.Some? {
      return Ok(found.value);
    }
    var id := |client.state.accounts|;
    var _ :- client.Do(client.state.(accounts := client.state.accounts + [name]));
    r := Ok(id);
  }

  method KeyOf(client: Caller<State>, name: string) returns (r: Result<nat, Stop>)
    modifies client
    ensures Step(client.Now(), r) == EnsureKey(old(client.Now()), name)
  {
    if name in client.state.keys {
      return Ok(client.state.keys[name]);
    }
    var key := client.Draw();
    var _ :- client.Do(client.state.(keys := client.state.keys[name := key]));
    r := Ok(key);
  }

  /** One account, its stored key, and exactly one certificate for it. */
  method EnsureService(client: Caller<State>, name: string, t: Tenant) returns (r: Result<(), Stop>)
    modifies client
    ensures Step(client.Now(), r) == Ensure(old(client.Now()), name, t)
  {
    var account :- AccountOf(client, name);
    var key :- KeyOf(client, name);
    var _ :- client.Do(client.state);
    var found := FindCert(client.state.certs, account, key);
    if found.Some? {
      r := client.Do(client.state.(files := client.state.files[name := found.value]));
      return;
    }
    var id := |client.state.certs|;
    var _ :- client.Do(client.state.(certs := client.state.certs + [Cert(key, t.issuer, t.id, None, true)]));
    var _ :- client.Do(client.state.(certs := BoundTo(client.state.certs, id, account)));
    r := client.Do(client.state.(files := client.state.files[name := id]));
  }

  method EnsureServices(client: Caller<State>, names: seq<string>, t: Tenant) returns (r: Result<(), Stop>)
    modifies client
    ensures Step(client.Now(), r) == EnsureAll(old(client.Now()), names, t)
  {
    ghost var started := client.Now();
    for i := 0 to |names|
      invariant EnsureAll(started, names, t) == EnsureAll(client.Now(), names[i..], t)
    {
      assert names[i..][0] == names[i] && names[i..][1..] == names[i + 1..];
      var _ :- EnsureService(client, names[i], t);
    }
    r := Ok(());
  }

  method IssueTenant(client: Caller<State>, job: Job) returns (r: Result<(), Stop>)
    modifies client
    ensures Step(client.Now(), r) == EnsureTenant(old(client.Now()), job)
  {
    var _ :- client.Do(client.state);
    var _ :- client.Do(client.state);
    r := EnsureServices(client, job.names, job.tenant);
  }

  /** Every tenant in turn: its signing CA looked up, its client signed in, its services ensured. */
  method RunStage(client: Caller<seq<State>>, jobs: seq<Job>) returns (r: Result<(), Stop>)
    requires |jobs| == |client.state|
    modifies client
    ensures Step(client.Now(), r) == Round(IssueAll(jobs), old(client.Now()))
  {
    for i := 0 to |jobs|
      invariant |client.state| == |jobs|
      invariant EachFrom(IssueAll(jobs), client.Now(), i) == Round(IssueAll(jobs), old(client.Now()))
    {
      var acting := new Caller(Acting(client.Now(), i));
      var one := IssueTenant(acting, jobs[i]);
      client.state, client.fates, client.next := client.state[i := acting.state], acting.fates, acting.next;
      if one.Err? {
        return one;
      }
    }
    r := Ok(());
  }
}
