/**
 The teardown of one tenant (`stages/smoke/teardown.rs`): what every run leaves, and what an answered
 one completes.
 */
module TeardownRun {
  import opened Common
  import Naming
  import Text
  import opened Remote
  import opened Teardown
  import opened TeardownOrder

  datatype Named = Named(id: nat, name: string)

  datatype State = State(groups: seq<Named>, resources: seq<Resource>, accounts: seq<Named>, users: seq<Named>)

  /** The lists whose entries are deleted by name alone. */
  datatype Which = Groups | Accounts | Users

  function ListOf(s: State, which: Which): seq<Named> {
    match which
    case Groups => s.groups
    case Accounts => s.accounts
    case Users => s.users
  }

  function WithList(s: State, which: Which, listed: seq<Named>): State {
    match which
    case Groups => s.(groups := listed)
    case Accounts => s.(accounts := listed)
    case Users => s.(users := listed)
  }

  predicate Picks(which: Which, name: string) {
    if which.Groups? then Naming.IsSmokeGroup(name) else Text.StartsWith(name, Naming.SMOKE_PREFIX)
  }

  /** The entries whose id is not gone, in their order. */
  function Without(listed: seq<Named>, gone: set<nat>): seq<Named> {
    if listed == [] then []
    else (if listed[0].id in gone then [] else [listed[0]]) + Without(listed[1..], gone)
  }

  function Dropped(s: State, which: Which, id: nat): State {
    WithList(s, which, Without(ListOf(s, which), {id}))
  }

  // ---------------------------------------------------------------- the run

  /** Each picked entry of what was listed is deleted by id. */
  function DropAll(w: World<State>, which: Which, listed: seq<Named>): Step<State, ()>
    decreases |listed|
  {
    if listed == [] then Step(w, Ok(()))
    else if !Picks(which, listed[0].name) then DropAll(w, which, listed[1..])
    else
      var drop := Call(w, Dropped(w.state, which, listed[0].id), ());
      if drop.result.Err? then drop else DropAll(drop.world, which, listed[1..])
  }

  function Sweep(w: World<State>, which: Which): Step<State, ()> {
    var listing := Call(w, w.state, ());
    if listing.result.Err? then listing else DropAll(listing.world, which, ListOf(w.state, which))
  }

  /** The server refuses to delete a resource that has a child. */
  function DeleteOne(w: World<State>, id: nat): Step<State, ()> {
    var refused := HasChild(w.state.resources, id);
    var call := Call(w, if refused then w.state else w.state.(resources := Left(w.state.resources, {id})), ());
    if call.result.Ok? && refused then Step(call.world, Err(HasChildren)) else call
  }

  function DeleteInOrder(w: World<State>, order: seq<Ranked>): Step<State, ()>
    decreases |order|
  {
    if order == [] then Step(w, Ok(()))
    else
      var first := DeleteOne(w, order[0].resource.id);
      if first.result.Err? then first else DeleteInOrder(first.world, order[1..])
  }

  function DeleteResources(w: World<State>): Step<State, ()> {
    var listing := Call(w, w.state, ());
    if listing.result.Err? then listing else DeleteInOrder(listing.world, OrderOf(w.state.resources))
  }

  function SweepAccounts(w: World<State>): Step<State, ()> {
    var accounts := Sweep(w, Accounts);
    if accounts.result.Err? then accounts else Sweep(accounts.world, Users)
  }

  function AfterGroups(w: World<State>): Step<State, ()> {
    var resources := DeleteResources(w);
    if resources.result.Err? then resources else SweepAccounts(resources.world)
  }

  /** Groups before resources, since a group bound to one can outlive it; then accounts and users. */
  function TearDown(w: World<State>): Step<State, ()> {
    var groups := Sweep(w, Groups);
    if groups.result.Err? then groups else AfterGroups(groups.world)
  }

  // ---------------------------------------------------------------- the lists

  function PickedIds(which: Which, listed: seq<Named>): set<nat> {
    set x | x in listed && Picks(which, x.name) :: x.id
  }

  ghost predicate UniqueNamedIds(listed: seq<Named>) {
    forall i, j | 0 <= i < j < |listed| :: listed[i].id != listed[j].id
  }

  /** What is kept of a list when everything picked is deleted: the rest, in order. */
  function Unpicked(which: Which, listed: seq<Named>): seq<Named> {
    if listed == [] then []
    else (if Picks(which, listed[0].name) then [] else [listed[0]]) + Unpicked(which, listed[1..])
  }

  lemma {:induction false} WithoutAre(listed: seq<Named>, gone: set<nat>)
    ensures forall x :: x in Without(listed, gone) <==> x in listed && x.id !in gone
    ensures |Without(listed, gone)| <= |listed|
  {
    if listed != [] {
      WithoutAre(listed[1..], gone);
    }
  }

  lemma {:induction false} WithoutTwice(listed: seq<Named>, a: set<nat>, b: set<nat>)
    ensures Without(Without(listed, a), b) == Without(listed, a + b)
  {
    if listed != [] {
      WithoutTwice(listed[1..], a, b);
      var rest := Without(listed[1..], a);
      if listed[0].id !in a {
        assert Without(listed, a) == [listed[0]] + rest && ([listed[0]] + rest)[1..] == rest;
      } else {
        assert Without(listed, a) == rest;
      }
    }
  }

  lemma {:induction false} WithoutNone(listed: seq<Named>)
    ensures Without(listed, {}) == listed
  {
    if listed != [] {
      WithoutNone(listed[1..]);
    }
  }

  lemma {:induction false} WithoutDependsOnMembers(listed: seq<Named>, a: set<nat>, b: set<nat>)
    requires forall x | x in listed :: x.id in a <==> x.id in b
    ensures Without(listed, a) == Without(listed, b)
  {
    if listed != [] {
      WithoutDependsOnMembers(listed[1..], a, b);
    }
  }

  lemma PickedOfRest(which: Which, listed: seq<Named>, y: Named)
    requires UniqueNamedIds(listed) && listed != [] && y in listed[1..]
    ensures y.id in PickedIds(which, listed) <==> y.id in PickedIds(which, listed[1..])
  {
    assert listed == [listed[0]] + listed[1..];
    if y.id in PickedIds(which, listed) {
      var z :| z in listed && Picks(which, z.name) && z.id == y.id;
      assert z in listed[1..];
    }
  }

  lemma PickedFirst(which: Which, listed: seq<Named>)
    requires UniqueNamedIds(listed) && listed != []
    ensures listed[0].id in PickedIds(which, listed) <==> Picks(which, listed[0].name)
  {
    if listed[0].id in PickedIds(which, listed) {
      var z :| z in listed && Picks(which, z.name) && z.id == listed[0].id;
      assert z == listed[0];
    }
  }

  /** With ids unique, deleting the picked ids keeps exactly what is not picked. */
  lemma {:induction false} WithoutPickedIsUnpicked(which: Which, listed: seq<Named>)
    requires UniqueNamedIds(listed)
    ensures Without(listed, PickedIds(which, listed)) == Unpicked(which, listed)
  {
    if listed != [] {
      var rest := listed[1..];
      WithoutPickedIsUnpicked(which, rest);
      PickedFirst(which, listed);
      forall y | y in rest ensures y.id in PickedIds(which, listed) <==> y.id in PickedIds(which, rest) {
        PickedOfRest(which, listed, y);
      }
      WithoutDependsOnMembers(rest, PickedIds(which, listed), PickedIds(which, rest));
    }
  }

  /** What has gone of a list in a stretch of deletions, and what that says of how it ended. */
  ghost predicate Swept(w: World<State>, which: Which, listed: seq<Named>, gone: set<nat>, out: Step<State, ()>) {
    && gone <= PickedIds(which, listed) && (out.result.Ok? ==> gone == PickedIds(which, listed))
    && out.world.state == WithList(w.state, which, Without(ListOf(w.state, which), gone))
  }

  lemma DropOne(w: World<State>, which: Which, listed: seq<Named>) returns (gone: set<nat>)
    requires listed != [] && Picks(which, listed[0].name)
    ensures gone <= {listed[0].id}
    ensures var drop := Call(w, Dropped(w.state, which, listed[0].id), ());
            && (drop.result.Ok? ==> gone == {listed[0].id})
            && drop.world.state == WithList(w.state, which, Without(ListOf(w.state, which), gone))
  {
    WithoutNone(ListOf(w.state, which));
    var drop := Call(w, Dropped(w.state, which, listed[0].id), ());
    gone := if drop.world.state == w.state && drop.result.Err? then {} else {listed[0].id};
  }

  lemma {:induction false} DropAllSweeps(w: World<State>, which: Which, listed: seq<Named>,
                                         rest: nat) returns (gone: set<nat>)
    ensures Swept(w, which, listed, gone, DropAll(w, which, listed))
    ensures Clear(w.fates, |listed| + rest) ==>
              DropAll(w, which, listed).result.Ok? && Clear(DropAll(w, which, listed).world.fates, rest)
    decreases |listed|
  {
    WithoutNone(ListOf(w.state, which));
    if listed == [] {
      return {};
    }
    assert PickedIds(which, listed) ==
           (if Picks(which, listed[0].name) then {listed[0].id} else {}) + PickedIds(which, listed[1..]);
    if !Picks(which, listed[0].name) {
      gone := DropAllSweeps(w, which, listed[1..], rest);
    } else {
      var drop := Call(w, Dropped(w.state, which, listed[0].id), ());
      gone := DropOne(w, which, listed);
      if drop.result.Ok? {
        var more := DropAllSweeps(drop.world, which, listed[1..], rest);
        WithoutTwice(ListOf(w.state, which), gone, more);
        gone := gone + more;
      }
    }
  }

  lemma SweepSweeps(w: World<State>, which: Which, rest: nat) returns (gone: set<nat>)
    ensures Swept(w, which, ListOf(w.state, which), gone, Sweep(w, which))
    ensures Clear(w.fates, 1 + |ListOf(w.state, which)| + rest) ==>
              Sweep(w, which).result.Ok? && Clear(Sweep(w, which).world.fates, rest)
  {
    var listing := Call(w, w.state, ());
    WithoutNone(ListOf(w.state, which));
    gone := {};
    if listing.result.Ok? {
      gone := DropAllSweeps(listing.world, which, ListOf(w.state, which), rest);
    }
  }

  // ---------------------------------------------------------------- the resources

  /** The reserved resources that can go: every child of theirs is reserved too. */
  ghost function Removable(all: seq<Resource>): set<nat> {
    set r | r in all && Reserved(r) && ChildrenReserved(all, r.id) :: r.id
  }

  lemma ClosedIsAllRemovable(all: seq<Resource>)
    ensures Closed(all) <==> Removable(all) == ReservedIds(all)
    ensures Removable(all) <= ReservedIds(all)
  {
    if Closed(all) {
      forall r | r in all && Reserved(r) ensures ChildrenReserved(all, r.id) {
        var i :| 0 <= i < |all| && all[i] == r;
        forall c | c in all && c.parent == Some(r.id) ensures Reserved(c) {
          var j :| 0 <= j < |all| && all[j] == c;
        }
      }
    }
    if Removable(all) == ReservedIds(all) {
      forall i, j | 0 <= i < |all| && 0 <= j < |all| && all[j].parent == Some(all[i].id) && Reserved(all[i])
        ensures Reserved(all[j])
      {
        assert all[i].id in Removable(all);
      }
    }
  }

  lemma BeforeIsRemovable(all: seq<Resource>, order: seq<Ranked>, m: nat)
    requires DeletionOrder(all, order) && m <= |order|
    requires forall i | 0 <= i < m :: ChildrenReserved(all, order[i].resource.id)
    ensures IdsBefore(order, m) <= Removable(all)
  {
    forall i | 0 <= i < m ensures order[i].resource.id in Removable(all) {
      assert order[i] in order;
    }
  }

  /** One deletion: the next of the order goes, or nothing does; a refusal means the listing is not closed. */
  lemma DeleteNext(w: World<State>, all: seq<Resource>, order: seq<Ranked>, n: nat) returns (m: nat)
    requires Forest(all) && DeletionOrder(all, order) && n < |order|
    requires w.state.resources == Left(all, IdsBefore(order, n))
    ensures n <= m <= n + 1 && (m == n + 1 ==> ChildrenReserved(all, order[n].resource.id))
    ensures var out := DeleteOne(w, order[n].resource.id);
            && out.world.state == w.state.(resources := Left(all, IdsBefore(order, m)))
            && (out.result.Ok? ==> m == n + 1)
            && (Closed(all) && w.fates != [] && w.fates[0] == Answered ==>
                  out.result.Ok? && out.world.fates == w.fates[1..])
  {
    var id := order[n].resource.id;
    if HasChild(w.state.resources, id) {
      if Closed(all) {
        NoChildIsLeft(all, order, n);
      }
      return n;
    }
    ChildrenWereReserved(all, order, n);
    OneMoreGone(all, order, n);
    m := if w.fates == [] || w.fates[0] == LostRequest then n else n + 1;
  }

  /** How far the deletions from `n` on have got when they end: to `m`. */
  ghost predicate DeletedTo(w: World<State>, all: seq<Resource>, order: seq<Ranked>, n: nat, m: nat, out: Step<State,
                            ()>) {
    && n <= m <= |order| && (forall i | n <= i < m :: ChildrenReserved(all, order[i].resource.id))
    && out.world.state == w.state.(resources := Left(all, IdsBefore(order, m)))
    && (out.result.Ok? ==> m == |order|)
  }

  lemma {:induction false} DeleteFrom(w: World<State>, all: seq<Resource>, order: seq<Ranked>, n: nat, left: nat,
                                      rest: nat)
    returns (m: nat)
    requires Forest(all) && DeletionOrder(all, order) && n + left == |order|
    requires w.state.resources == Left(all, IdsBefore(order, n))
    ensures DeletedTo(w, all, order, n, m, DeleteInOrder(w, order[n..]))
    ensures var out := DeleteInOrder(w, order[n..]);
            Closed(all) && Clear(w.fates, left + rest) ==> out.result.Ok? && Clear(out.world.fates, rest)
    decreases left
  {
    if left == 0 {
      return n;
    }
    ClearTail(w.fates, left - 1 + rest);
    assert order[n..][0] == order[n] && order[n..][1..] == order[n + 1..];
    var one := DeleteOne(w, order[n].resource.id);
    m := DeleteNext(w, all, order, n);
    if one.result.Ok? {
      m := DeleteFrom(one.world, all, order, n + 1, left - 1, rest);
    }
  }

  lemma DeletedMeans(all: seq<Resource>, order: seq<Ranked>, m: nat)
    requires DeletionOrder(all, order) && m <= |order|
    requires forall i | 0 <= i < m :: ChildrenReserved(all, order[i].resource.id)
    ensures IdsBefore(order, m) <= Removable(all)
    ensures m == |order| ==> Closed(all) && Left(all, IdsBefore(order, m)) == Left(all, ReservedIds(all))
  {
    BeforeIsRemovable(all, order, m);
    if m == |order| {
      AllDoneIsClosed(all, order);
      WholeOrderIsTheReserved(all, order);
    }
  }

  lemma DeletionsOfOrder(w: World<State>, all: seq<Resource>, order: seq<Ranked>, rest: nat) returns (gone: set<nat>)
    requires Forest(all) && DeletionOrder(all, order) && w.state.resources == all
    ensures gone <= Removable(all)
    ensures var out := DeleteInOrder(w, order);
            && out.world.state == w.state.(resources := Left(all, gone))
            && (out.result.Ok? ==> Closed(all) && Left(all, gone) == Left(all, ReservedIds(all)))
            && (Clear(w.fates, |order| + rest) && Closed(all) ==> out.result.Ok? && Clear(out.world.fates, rest))
  {
    NothingGone(all, order);
    assert order[0..] == order;
    var m := DeleteFrom(w, all, order, 0, |order|, rest);
    DeletedMeans(all, order, m);
    gone := IdsBefore(order, m);
  }

  /**
   On a forest, however the calls go: only resources that can go are deleted; if the pass completes, the
   reserved ones have all gone, and every child of one was reserved; if it is answered, it completes
   exactly in that case.
   */
  lemma DeletionsExactly(w: World<State>, rest: nat) returns (gone: set<nat>)
    requires Forest(w.state.resources)
    ensures gone <= Removable(w.state.resources)
    ensures var all, out := w.state.resources, DeleteResources(w);
            && out.world.state == w.state.(resources := Left(all, gone))
            && (out.result.Ok? ==> Closed(all) && Left(all, gone) == Left(all, ReservedIds(all)))
            && (Clear(w.fates, 1 + |all| + rest) && Closed(all) ==> out.result.Ok? && Clear(out.world.fates, rest))
  {
    var all, order := w.state.resources, OrderOf(w.state.resources);
    OrderOfIsADeletionOrder(all);
    RankingIsShorter(all, all);
    LeftOfNone(all);
    gone := {};
    var listing := Call(w, w.state, ());
    if listing.result.Ok? {
      ClearTail(w.fates, |all| + rest);
      ClearLess(w.fates[1..], |all| + rest, |order| + rest);
      gone := DeletionsOfOrder(listing.world, all, order, rest);
    }
  }

  // ---------------------------------------------------------------- one teardown

  ghost predicate TrimmedList(which: Which, listed: seq<Named>, kept: seq<Named>) {
    exists gone :: gone <= PickedIds(which, listed) && kept == Without(listed, gone)
  }

  ghost predicate TrimmedResources(all: seq<Resource>, kept: seq<Resource>) {
    exists gone :: gone <= Removable(all) && kept == Left(all, gone)
  }

  /** Only what is reserved has gone, and of the resources only what could go; the rest is there in order. */
  ghost predicate Trimmed(s: State, s': State) {
    && TrimmedList(Groups, s.groups, s'.groups) && TrimmedResources(s.resources, s'.resources)
    && TrimmedList(Accounts, s.accounts, s'.accounts) && TrimmedList(Users, s.users, s'.users)
  }

  ghost predicate Sound(s: State) {
    Forest(s.resources) && UniqueNamedIds(s.groups) && UniqueNamedIds(s.accounts) && UniqueNamedIds(s.users)
  }

  /** The tenant with everything reserved gone. */
  ghost function Emptied(s: State): State {
    State(Unpicked(Groups, s.groups), Left(s.resources, ReservedIds(s.resources)),
          Unpicked(Accounts, s.accounts), Unpicked(Users, s.users))
  }

  /** Each list is touched only once the one before it is done. */
  ghost predicate InOrder(s: State, s': State) {
    && (s'.resources != s.resources ==> s'.groups == Emptied(s).groups)
    && (s'.accounts != s.accounts ==> s'.resources == Emptied(s).resources)
    && (s'.users != s.users ==> s'.accounts == Emptied(s).accounts)
  }

  function Calls(s: State): nat { 4 + |s.groups| + |s.resources| + |s.accounts| + |s.users| }

  lemma Untrimmed(s: State)
    ensures TrimmedList(Groups, s.groups, s.groups) && TrimmedList(Accounts, s.accounts, s.accounts)
    ensures TrimmedList(Users, s.users, s.users) && TrimmedResources(s.resources, s.resources)
  {
    WithoutNone(s.groups);
    WithoutNone(s.accounts);
    WithoutNone(s.users);
    LeftOfNone(s.resources);
    var none: set<nat> := {};
    assert s.resources == Left(s.resources, none) && none <= Removable(s.resources);
  }

  lemma SweepTrims(w: World<State>, which: Which, rest: nat)
    requires UniqueNamedIds(ListOf(w.state, which))
    ensures var out, listed := Sweep(w, which), ListOf(w.state, which);
            && out.world.state == WithList(w.state, which, ListOf(out.world.state, which))
            && TrimmedList(which, listed, ListOf(out.world.state, which))
            && (out.result.Ok? ==> ListOf(out.world.state, which) == Unpicked(which, listed))
            && (Clear(w.fates, 1 + |listed| + rest) ==> out.result.Ok? && Clear(out.world.fates, rest))
  {
    var gone := SweepSweeps(w, which, rest);
    WithoutPickedIsUnpicked(which, ListOf(w.state, which));
  }

  lemma DeletionsTrim(w: World<State>, rest: nat)
    requires Forest(w.state.resources)
    ensures var all, out := w.state.resources, DeleteResources(w);
            && out.world.state == w.state.(resources := out.world.state.resources)
            && TrimmedResources(all, out.world.state.resources)
            && (out.result.Ok? ==> Closed(all) && out.world.state.resources == Left(all, ReservedIds(all)))
            && (Clear(w.fates, 1 + |all| + rest) && Closed(all) ==> out.result.Ok? && Clear(out.world.fates, rest))
  {
    var gone := DeletionsExactly(w, rest);
  }

  lemma SweepAccountsTrims(w: World<State>)
    requires UniqueNamedIds(w.state.accounts) && UniqueNamedIds(w.state.users)
    ensures var s, out := w.state, SweepAccounts(w);
            var s' := out.world.state;
            && s' == s.(accounts := s'.accounts, users := s'.users)
            && TrimmedList(Accounts, s.accounts, s'.accounts) && TrimmedList(Users, s.users, s'.users)
            && (s'.users != s.users ==> s'.accounts == Emptied(s).accounts)
            && (out.result.Ok? ==> s'.accounts == Emptied(s).accounts && s'.users == Emptied(s).users)
            && (Clear(w.fates, 2 + |s.accounts| + |s.users|) ==> out.result.Ok?)
  {
    Untrimmed(w.state);
    SweepTrims(w, Accounts, 1 + |w.state.users|);
    var accounts := Sweep(w, Accounts);
    if accounts.result.Ok? {
      SweepTrims(accounts.world, Users, 0);
    }
  }

  lemma AfterGroupsTrims(w: World<State>)
    requires Forest(w.state.resources) && UniqueNamedIds(w.state.accounts) && UniqueNamedIds(w.state.users)
    ensures var s, out := w.state, AfterGroups(w);
            var s' := out.world.state;
            && s' == s.(resources := s'.resources, accounts := s'.accounts, users := s'.users)
            && TrimmedResources(s.resources, s'.resources)
            && TrimmedList(Accounts, s.accounts, s'.accounts) && TrimmedList(Users, s.users, s'.users)
            && (s'.accounts != s.accounts ==> s'.resources == Emptied(s).resources)
            && (s'.users != s.users ==> s'.accounts == Emptied(s).accounts)
            && (out.result.Ok? ==> Closed(s.resources) && s' == Emptied(s).(groups := s.groups))
            && (Clear(w.fates, 3 + |s.resources| + |s.accounts| + |s.users|) && Closed(s.resources) ==> out.result.Ok?)
  {
    Untrimmed(w.state);
    DeletionsTrim(w, 2 + |w.state.accounts| + |w.state.users|);
    var resources := DeleteResources(w);
    if resources.result.Ok? {
      SweepAccountsTrims(resources.world);
    }
  }

  /**
   However its calls go, a teardown removes only what is reserved, list by list. It can complete only if
   every child of a reserved resource is reserved, and then leaves exactly the unreserved; answered, it
   completes in that case.
   */
  lemma TearDownExactly(w: World<State>)
    requires Sound(w.state)
    ensures var s, out := w.state, TearDown(w);
            && Trimmed(s, out.world.state) && InOrder(s, out.world.state)
            && (out.result.Ok? ==> Closed(s.resources) && out.world.state == Emptied(s))
            && (Clear(w.fates, Calls(s)) && Closed(s.resources) ==> out.result.Ok?)
  {
    var s := w.state;
    Untrimmed(s);
    SweepTrims(w, Groups, 3 + |s.resources| + |s.accounts| + |s.users|);
    var groups := Sweep(w, Groups);
    if groups.result.Ok? {
      AfterGroupsTrims(groups.world);
    }
  }

  // ---------------------------------------------------------------- interrupted teardowns

  lemma {:induction false} UnpickedStay(which: Which, listed: seq<Named>, gone: set<nat>)
    requires forall x | x in listed && x.id in gone :: Picks(which, x.name)
    ensures Unpicked(which, Without(listed, gone)) == Unpicked(which, listed)
  {
    if listed != [] {
      UnpickedStay(which, listed[1..], gone);
      var rest := Without(listed[1..], gone);
      if listed[0].id !in gone {
        assert ([listed[0]] + rest)[1..] == rest;
      } else {
        assert Without(listed, gone) == rest && Picks(which, listed[0].name);
      }
    }
  }

  lemma {:induction false} WithoutStaysUnique(listed: seq<Named>, gone: set<nat>)
    requires UniqueNamedIds(listed)
    ensures UniqueNamedIds(Without(listed, gone))
  {
    if listed != [] {
      WithoutStaysUnique(listed[1..], gone);
      WithoutAre(listed[1..], gone);
      var rest := Without(listed[1..], gone);
      forall k | 0 <= k < |rest| ensures rest[k].id != listed[0].id {
        assert rest[k] in listed[1..];
      }
    }
  }

  lemma PickedIdsArePicked(which: Which, listed: seq<Named>, x: Named)
    requires UniqueNamedIds(listed) && x in listed && x.id in PickedIds(which, listed)
    ensures Picks(which, x.name)
  {
    var z :| z in listed && Picks(which, z.name) && z.id == x.id;
  }

  lemma TrimmedListTwice(which: Which, a: seq<Named>, b: seq<Named>, c: seq<Named>)
    requires UniqueNamedIds(a) && TrimmedList(which, a, b) && TrimmedList(which, b, c)
    ensures TrimmedList(which, a, c) && Unpicked(which, b) == Unpicked(which, a) && UniqueNamedIds(b) && |b| <= |a|
  {
    var x :| x <= PickedIds(which, a) && b == Without(a, x);
    var y :| y <= PickedIds(which, b) && c == Without(b, y);
    WithoutTwice(a, x, y);
    WithoutAre(a, x);
    assert PickedIds(which, b) <= PickedIds(which, a);
    assert c == Without(a, x + y);
    forall z | z in a && z.id in x ensures Picks(which, z.name) {
      PickedIdsArePicked(which, a, z);
    }
    UnpickedStay(which, a, x);
    WithoutStaysUnique(a, x);
  }

  lemma ReservedIdsAreReserved(all: seq<Resource>, r: Resource)
    requires UniqueIds(all) && r in all && r.id in ReservedIds(all)
    ensures Reserved(r)
  {
    var q :| q in all && Reserved(q) && q.id == r.id;
    SameIdSameResource(all, q, r);
  }

  lemma ClosedByResources(all: seq<Resource>)
    ensures Closed(all) <==> forall r | r in all && Reserved(r) :: ChildrenReserved(all, r.id)
  {
    ClosedIsAllRemovable(all);
    if Closed(all) {
      forall r | r in all && Reserved(r) ensures ChildrenReserved(all, r.id) {
        var i :| 0 <= i < |all| && all[i] == r;
        forall c | c in all && c.parent == Some(r.id) ensures Reserved(c) {
          var j :| 0 <= j < |all| && all[j] == c;
        }
      }
    }
  }

  /** Taking away what can go neither closes a listing nor opens it, and leaves the same to be kept. */
  lemma LeftIsClosedExactly(all: seq<Resource>, gone: set<nat>)
    requires UniqueIds(all) && gone <= Removable(all)
    ensures Closed(Left(all, gone)) <==> Closed(all)
    ensures Removable(Left(all, gone)) <= Removable(all)
  {
    var left := Left(all, gone);
    LeftAre(all, gone);
    ClosedByResources(all);
    ClosedByResources(left);
    forall r | r in left && Reserved(r) ensures ChildrenReserved(left, r.id) <==> ChildrenReserved(all, r.id) {
      if ChildrenReserved(left, r.id) {
        forall c | c in all && c.parent == Some(r.id) ensures Reserved(c) {
          if c !in left {
            ClosedIsAllRemovable(all);
            ReservedIdsAreReserved(all, c);
          }
        }
      }
    }
    forall r | r in all && r !in left ensures ChildrenReserved(all, r.id) {
      var q :| q in all && Reserved(q) && ChildrenReserved(all, q.id) && q.id == r.id;
    }
  }

  lemma LeftKeepsTheSame(all: seq<Resource>, gone: set<nat>)
    requires UniqueIds(all) && gone <= ReservedIds(all)
    ensures Left(Left(all, gone), ReservedIds(Left(all, gone))) == Left(all, ReservedIds(all))
  {
    var left := Left(all, gone);
    LeftAre(all, gone);
    LeftOfLeft(all, gone, ReservedIds(left));
    forall r | r in all ensures r.id in gone + ReservedIds(left) <==> r.id in ReservedIds(all) {
      if r.id in ReservedIds(all) {
        ReservedIdsAreReserved(all, r);
      }
    }
    LeftDependsOnMembers(all, gone + ReservedIds(left), ReservedIds(all));
  }

  lemma {:induction false} ParentOfLeft(all: seq<Resource>, gone: set<nat>, id: nat)
    ensures ParentOf(Left(all, gone), id) == if id in gone then None else ParentOf(all, id)
  {
    if all != [] {
      ParentOfLeft(all[1..], gone, id);
      var rest := Left(all[1..], gone);
      assert Left(all, gone) == (if all[0].id in gone then rest else [all[0]] + rest) && ([all[0]] + rest)[1..] == rest;
    }
  }

  lemma {:induction false} EndsInLeft(all: seq<Resource>, gone: set<nat>, cursor: Option<nat>, n: nat) returns (m: nat)
    requires Ends(all, cursor, n)
    ensures Ends(Left(all, gone), cursor, m)
    decreases n
  {
    m := 0;
    if n > 0 {
      ParentOfLeft(all, gone, cursor.value);
      if cursor.value in gone {
        assert Ends(Left(all, gone), None, 0);
      } else {
        m := EndsInLeft(all, gone, ParentOf(all, cursor.value), n - 1);
      }
      m := m + 1;
    }
  }

  lemma {:induction false} LeftStaysUnique(all: seq<Resource>, gone: set<nat>)
    requires UniqueIds(all)
    ensures UniqueIds(Left(all, gone))
  {
    if all != [] {
      LeftStaysUnique(all[1..], gone);
      LeftAre(all[1..], gone);
      var rest := Left(all[1..], gone);
      forall k | 0 <= k < |rest| ensures rest[k].id != all[0].id {
        assert rest[k] in all[1..];
      }
    }
  }

  lemma ForestStays(all: seq<Resource>, gone: set<nat>)
    requires Forest(all)
    ensures Forest(Left(all, gone))
  {
    LeftStaysUnique(all, gone);
    LeftAre(all, gone);
    forall r | r in Left(all, gone) ensures Rooted(Left(all, gone), r) {
      assert Rooted(all, r);
      var n: nat :| Ends(all, r.parent, n);
      var m := EndsInLeft(all, gone, r.parent, n);
    }
  }

  lemma LeftTwice(all: seq<Resource>, x: set<nat>, y: set<nat>)
    requires UniqueIds(all) && x <= Removable(all) && y <= Removable(Left(all, x))
    ensures TrimmedResources(all, Left(Left(all, x), y))
  {
    LeftIsClosedExactly(all, x);
    LeftOfLeft(all, x, y);
    assert x + y <= Removable(all);
  }

  lemma LeftIsAsGood(all: seq<Resource>, x: set<nat>)
    requires Forest(all) && x <= Removable(all)
    ensures Forest(Left(all, x)) && |Left(all, x)| <= |all| && (Closed(Left(all, x)) <==> Closed(all))
    ensures Left(Left(all, x), ReservedIds(Left(all, x))) == Left(all, ReservedIds(all))
  {
    LeftIsClosedExactly(all, x);
    LeftAre(all, x);
    ForestStays(all, x);
    ClosedIsAllRemovable(all);
    LeftKeepsTheSame(all, x);
  }

  lemma TrimmedResourcesTwice(a: seq<Resource>, b: seq<Resource>, c: seq<Resource>)
    requires Forest(a) && TrimmedResources(a, b) && TrimmedResources(b, c)
    ensures TrimmedResources(a, c) && Forest(b) && |b| <= |a| && (Closed(b) <==> Closed(a))
    ensures Left(b, ReservedIds(b)) == Left(a, ReservedIds(a))
  {
    var x :| x <= Removable(a) && b == Left(a, x);
    var y :| y <= Removable(b) && c == Left(b, y);
    LeftTwice(a, x, y);
    LeftIsAsGood(a, x);
  }

  lemma TrimmedTwice(a: State, b: State, c: State)
    requires Sound(a) && Trimmed(a, b) && Trimmed(b, c)
    ensures Trimmed(a, c) && Sound(b) && Emptied(b) == Emptied(a) && Calls(b) <= Calls(a)
    ensures Closed(b.resources) <==> Closed(a.resources)
  {
    TrimmedListTwice(Groups, a.groups, b.groups, c.groups);
    TrimmedListTwice(Accounts, a.accounts, b.accounts, c.accounts);
    TrimmedListTwice(Users, a.users, b.users, c.users);
    TrimmedResourcesTwice(a.resources, b.resources, c.resources);
  }

  /** The tenant after a number of teardowns, each ending where its calls do. */
  function AfterRuns(s: State, runs: seq<seq<Fate>>): State
    decreases |runs|
  {
    if runs == [] then s else AfterRuns(TearDown(World(s, runs[0], 0)).world.state, runs[1..])
  }

  lemma {:induction false} RunsTrim(s: State, runs: seq<seq<Fate>>)
    requires Sound(s)
    ensures var last := AfterRuns(s, runs);
            && Trimmed(s, last) && Sound(last) && Emptied(last) == Emptied(s) && Calls(last) <= Calls(s)
            && (Closed(last.resources) <==> Closed(s.resources))
    decreases |runs|
  {
    Untrimmed(s);
    if runs == [] {
      TrimmedTwice(s, s, s);
    } else {
      var next := TearDown(World(s, runs[0], 0)).world.state;
      TearDownExactly(World(s, runs[0], 0));
      Untrimmed(next);
      TrimmedTwice(s, next, next);
      RunsTrim(next, runs[1..]);
      TrimmedTwice(s, next, AfterRuns(next, runs[1..]));
    }
  }

  /**
   Interrupted teardowns converge: however many are cut off, and wherever, nothing unreserved has gone;
   an answered one then completes if and only if, in the tenant as it was at first, every child of a
   reserved resource is reserved, and leaves exactly what was unreserved there.
   */
  lemma InterruptedTeardownsConverge(s: State, runs: seq<seq<Fate>>, last: seq<Fate>)
    requires Sound(s)
    ensures Trimmed(s, AfterRuns(s, runs))
    ensures var done := TearDown(World(AfterRuns(s, runs), last, 0));
            && (done.result.Ok? ==> Closed(s.resources) && done.world.state == Emptied(s))
            && (Clear(last, Calls(s)) ==> (done.result.Ok? <==> Closed(s.resources)))
  {
    RunsTrim(s, runs);
    TearDownExactly(World(AfterRuns(s, runs), last, 0));
    ClearLess(last, Calls(s), Calls(AfterRuns(s, runs)));
  }

  /** What is left is what was not reserved, in its order. */
  lemma EmptiedKeepsTheUnreserved(s: State)
    requires Sound(s)
    ensures forall r :: r in Emptied(s).resources <==> r in s.resources && !Reserved(r)
  {
    LeftAre(s.resources, ReservedIds(s.resources));
    forall r | r in s.resources && !Reserved(r) ensures r.id !in ReservedIds(s.resources) {
      if r.id in ReservedIds(s.resources) {
        ReservedIdsAreReserved(s.resources, r);
      }
    }
  }
}
