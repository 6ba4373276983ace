/** The teardown's calls in their order (`stages/smoke/teardown.rs`), against the functions of `TeardownRun`. */
module TeardownClient {
  import opened Common
  import opened Remote
  import opened Teardown
  import opened TeardownOrder
  import opened TeardownRun

  /** List, pick by name, delete each by id. */
  method SweepList(client: Caller<State>, which: Which) returns (r: Result<(), Stop>)
    modifies client
    ensures Step(client.Now(), r) == Sweep(old(client.Now()), which)
  {
    var _ :- client.Do(client.state);
    var listed := ListOf(client.state, which);
    ghost var started := client.Now();
    for i := 0 to |listed|
      invariant DropAll(client.Now(), which, listed[i..]) == DropAll(started, which, listed)
    {
      assert listed[i..][0] == listed[i] && listed[i..][1..] == listed[i + 1..];
      if Picks(which, listed[i].name) {
        var _ :- client.Do(Dropped(client.state, which, listed[i].id));
      }
    }
    r := Ok(());
  }

  /** The reserved resources with their depths, as the filter and the sort key make them. */
  method RankReserved(all: seq<Resource>) returns (ranked: seq<Ranked>)
    ensures ranked == Ranking(all, all)
  {
    ranked := [];
    for n := 0 to |all|
      invariant ranked == Ranking(all, all[..n])
    {
      assert all[..n + 1][..n] == all[..n];
      if Reserved(all[n]) {
        var depth := DepthOf(all[n], all);
        ranked := ranked + [Ranked(depth, all[n])];
      }
    }
    assert all[..|all|] == all;
  }

  method Delete(client: Caller<State>, id: nat) returns (r: Result<(), Stop>)
    modifies client
    ensures Step(client.Now(), r) == DeleteOne(old(client.Now()), id)
  {
    var refused := HasChild(client.state.resources, id);
    var left := Left(client.state.resources, {id});
    var _ :- client.Do(if refused then client.state else client.state.(resources := left));
    r := if refused then Err(HasChildren) else Ok(());
  }

  /** The reserved resources, leaf-first. */
  method DeleteReserved(client: Caller<State>) returns (r: Result<(), Stop>)
    modifies client
    ensures Step(client.Now(), r) == DeleteResources(old(client.Now()))
  {
    var _ :- client.Do(client.state);
    var ranked := RankReserved(client.state.resources);
    var order := DeepestFirst(ranked);
    ghost var started := client.Now();
    for n := 0 to |order|
      invariant DeleteInOrder(client.Now(), order[n..]) == DeleteInOrder(started, order)
    {
      assert order[n..][0] == order[n] && order[n..][1..] == order[n + 1..];
      var _ :- Delete(client, order[n].resource.id);
    }
    r := Ok(());
  }

  method TearDownTenant(client: Caller<State>) returns (r: Result<(), Stop>)
    modifies client
    ensures Step(client.Now(), r) == TearDown(old(client.Now()))
  {
    var _ :- SweepList(client, Groups);
    var _ :- DeleteReserved(client);
    var _ :- SweepList(client, Accounts);
    r := SweepList(client, Users);
  }
}
