/**
 The lazily made group of one device (`self_service_group` in `stages/smoke.rs`): the group and its
 scoped binding by the same helper the tree uses, then the device's own account as a member.
 */
module SelfService {
  import opened Common
  import opened Naming
  import opened Remote
  import opened Tree
  import opened TreeRuns
  import opened TreeConvergence
  import opened TreeClient

  /** The group found again by name, its members listed, and the account added if it is not one. */
  function AddMember(w: World<Store>, group: string, account: nat): Step<Store, ()> {
    var search := Read(w);
    if search.result.Err? then search
    else if group !in w.state.groups then Step(search.world, Err(Missing))
    else
      var member := (IndexOf(w.state.groups, group), account);
      var listing := Read(search.world);
      if listing.result.Err? || member in w.state.members then listing
      else Call(listing.world, w.state.(members := w.state.members + {member}), ())
  }

  function SelfServiceGroup(w: World<Store>, held: Held, id: nat, account: nat): Step<Store, ()> {
    var bound := EnsureGroupBinding(w, held, id);
    if bound.result.Err? then Step(bound.world, Err(bound.result.error))
    else AddMember(bound.world, held.group, account)
  }

  method EnsureMember(client: Caller<Store>, role: string, slug: string, id: nat, account: nat)
    returns (r: Result<(), Stop>)
    modifies client
    ensures GroupName(role, Device, slug).Err? ==> client.Now() == old(client.Now()) && r == Err(BadName)
    ensures GroupName(role, Device, slug).Ok? ==>
              Step(client.Now(), r) ==
              SelfServiceGroup(old(client.Now()), Held(role, GroupName(role, Device, slug).value), id, account)
  {
    var group :- BindGroup(client, role, Device, slug, id);
    var _ :- client.Do(client.state);
    if group !in client.state.groups {
      return Err(Missing);
    }
    var member := (IndexOf(client.state.groups, group), account);
    var _ :- client.Do(client.state);
    if member in client.state.members {
      return Ok(());
    }
    r := client.Do(client.state.(members := client.state.members + {member}));
  }

  /** The members of the group of this name. */
  ghost function MembersOf(s: Store, group: string): set<nat> {
    set m | m in s.members && Names(s, m.0, group) :: m.1
  }

  /** Memberships name groups that exist. */
  ghost predicate MembersExist(s: Store) {
    forall m | m in s.members :: m.0 < |s.groups|
  }

  /** All that a run may change: this group and its binding here, and this one membership. */
  ghost predicate Changed(s: Store, s': Store, held: Held, id: nat, account: nat) {
    && Distinct(s'.groups) && MembersExist(s')
    && GroupsGrown(s, s'.(members := s.members), [held], id)
    && (forall m | m in s'.members && m !in s.members :: m.1 == account && Names(s', m.0, held.group))
    && s.members <= s'.members
  }

  lemma AddMemberChanges(w: World<Store>, group: string, account: nat)
    requires Distinct(w.state.groups) && MembersExist(w.state)
    ensures var out := AddMember(w, group, account);
            && out.world.state == w.state.(members := out.world.state.members)
            && w.state.members <= out.world.state.members && MembersExist(out.world.state)
            && (forall m | m in out.world.state.members && m !in w.state.members ::
                  m.1 == account && Names(w.state, m.0, group))
            && (out.result.Ok? ==> exists g: nat :: Names(w.state, g, group) && (g, account) in out.world.state.members)
  {
  }

  lemma BoundElsewhere(s: Store, s': Store, held: Held, id: nat)
    requires s' == s.(members := s'.members) && Bound(s, held, id)
    ensures Bound(s', held, id)
  {
  }

  lemma SelfServiceChanges(w: World<Store>, held: Held, id: nat, account: nat)
    requires Distinct(w.state.groups) && MembersExist(w.state)
    ensures var out := SelfServiceGroup(w, held, id, account);
            && Changed(w.state, out.world.state, held, id, account)
            && (out.result.Ok? ==>
                  Bound(out.world.state, held, id) && account in MembersOf(out.world.state, held.group))
  {
    GroupBindingGrows(w, held, id);
    var bound := EnsureGroupBinding(w, held, id);
    if bound.result.Ok? {
      AddMemberChanges(bound.world, held.group, account);
      var out := AddMember(bound.world, held.group, account);
      BoundElsewhere(bound.world.state, out.world.state, held, id);
      if out.result.Ok? {
        var g: nat :| Names(bound.world.state, g, held.group) && (g, account) in out.world.state.members;
        assert Names(out.world.state, (g, account).0, held.group);
      }
    }
  }

  /**
   However it ends, a run gives the group no member but the device's own account; once it completes
   the group is bound to the device and that account is in it.
   */
  lemma TheDeviceIsTheOnlyMember(w: World<Store>, held: Held, id: nat, account: nat)
    requires Distinct(w.state.groups) && MembersExist(w.state) && MembersOf(w.state, held.group) <= {account}
    ensures var out := SelfServiceGroup(w, held, id, account);
            && MembersOf(out.world.state, held.group) <= {account}
            && (out.result.Ok? ==>
                  Bound(out.world.state, held, id) && MembersOf(out.world.state, held.group) == {account})
  {
    SelfServiceChanges(w, held, id, account);
    var s, s' := w.state, SelfServiceGroup(w, held, id, account).world.state;
    forall m | m in s'.members && Names(s', m.0, held.group) ensures m.1 == account {
      if m in s.members {
        assert Names(s, m.0, held.group) && m.1 in MembersOf(s, held.group);
      }
    }
  }

  /** Once it has completed, a further run changes nothing, however it ends. */
  lemma AnotherRunAddsNothing(w: World<Store>, held: Held, id: nat, account: nat)
    requires Distinct(w.state.groups) && Bound(w.state, held, id) && account in MembersOf(w.state, held.group)
    ensures SelfServiceGroup(w, held, id, account).world.state == w.state
  {
    GroupBindingIdle(w, held, id);
    var m :| m in w.state.members && Names(w.state, m.0, held.group) && m.1 == account;
    IndexIsUnique(w.state.groups, held.group, m.0);
  }
}
