/**
 Which entries the teardown removes, told from their names alone (`stages/smoke/teardown.rs`): the
 prefix is read where the names carry it, and nothing else ever goes.
 */
module TeardownNames {
  import opened Common
  import Naming
  import Text
  import opened Remote
  import opened Teardown
  import opened TeardownOrder
  import opened TeardownRun

  // ---------------------------------------------------------------- reading the names

  predicate TailAt(name: string, i: nat) {
    i <= |name| && (i == 0 || name[i - 1] == ':') && ':' !in name[i..]
  }

  /** What follows the last colon, all of the name if there is none, starts with the prefix. */
  ghost predicate ReservedTail(name: string) { exists i: nat :: TailAt(name, i) && "smoke-" <= name[i..] }

  predicate CutAt(name: string, i: nat) { i < |name| && name[i] == '@' && '@' !in name[..i] }

  /** What follows the first at-sign is a reserved resource name. */
  ghost predicate ReservedGroup(name: string) {
    exists i: nat :: CutAt(name, i) && ReservedTail(name[i + 1..])
  }

  lemma {:induction false} LastColon(name: string, from: nat) returns (i: nat)
    requires from <= |name| && ':' !in name[from..]
    ensures TailAt(name, i)
    decreases from
  {
    i := from;
    if from > 0 && name[from - 1] != ':' {
      assert name[from - 1..] == [name[from - 1]] + name[from..];
      i := LastColon(name, from - 1);
    }
  }

  lemma TailIsAfterLast(name: string, i: nat)
    requires TailAt(name, i)
    ensures Text.AfterLast(name, ':') == name[i..]
  {
    if i == 0 {
      Text.AfterLastWhole(name, ':');
      assert name[0..] == name;
    } else {
      Text.AfterLastOf(name[..i - 1], name[i..], ':');
      assert name == name[..i - 1] + [':'] + name[i..];
    }
  }

  lemma ResourcesAreRead(name: string)
    ensures Naming.IsSmokeName(name) <==> ReservedTail(name)
  {
    var i := LastColon(name, |name|);
    TailIsAfterLast(name, i);
    forall j: nat | TailAt(name, j) ensures name[j..] == name[i..] {
      TailIsAfterLast(name, j);
    }
    assert Text.StartsWith(name[i..], "smoke-") <==> "smoke-" <= name[i..];
  }

  lemma CutIsAfterFirst(name: string, i: nat)
    requires CutAt(name, i)
    ensures Text.AfterFirst(name, '@') == Some(name[i + 1..])
  {
    Text.AfterFirstOf(name[..i], name[i + 1..], '@');
    assert name == name[..i] + ['@'] + name[i + 1..];
  }

  lemma {:induction false} FirstAtSign(name: string, from: nat) returns (i: nat)
    requires from <= |name| && '@' !in name[..from]
    ensures CutAt(name, i) || '@' !in name
    decreases |name| - from
  {
    i := from;
    if from == |name| {
      assert name[..from] == name;
    } else if name[from] != '@' {
      assert name[..from + 1] == name[..from] + [name[from]];
      i := FirstAtSign(name, from + 1);
    }
  }

  lemma {:induction false} NoAtSignNoCut(name: string)
    requires '@' !in name
    ensures Text.AfterFirst(name, '@') == None
  {
    if name != "" {
      NoAtSignNoCut(name[1..]);
    }
  }

  lemma GroupsAreRead(name: string)
    ensures Naming.IsSmokeGroup(name) <==> ReservedGroup(name)
  {
    var i := FirstAtSign(name, 0);
    if CutAt(name, i) {
      CutIsAfterFirst(name, i);
      ResourcesAreRead(name[i + 1..]);
      forall j: nat | CutAt(name, j) ensures name[j + 1..] == name[i + 1..] {
        CutIsAfterFirst(name, j);
      }
    } else {
      NoAtSignNoCut(name);
    }
  }

  /** Names the scheme generates are reserved exactly by their slug; a portfolio's never. */
  lemma GeneratedNamesAreRead(role: string, kind: Naming.Kind, slug: string, name: string, group: string)
    requires Naming.ResourceName(kind, slug) == Ok(name) && Naming.GroupName(role, kind, slug) == Ok(group)
    ensures ReservedTail(name) <==> kind != Naming.Portfolio && "smoke-" <= slug
    ensures ReservedGroup(group) <==> kind != Naming.Portfolio && "smoke-" <= slug
  {
    ResourcesAreRead(name);
    GroupsAreRead(group);
    Naming.SmokeNamesAreReadBack(kind, slug);
    Naming.SmokeGroupsAreReadBack(role, kind, slug);
    assert Text.StartsWith(slug, "smoke-") <==> "smoke-" <= slug;
  }

  /** The names that go, list by list. */
  ghost predicate Goes(which: Which, name: string) {
    if which.Groups? then ReservedGroup(name) else "smoke-" <= name
  }

  lemma PicksAreTheReserved(which: Which, name: string)
    ensures Picks(which, name) <==> Goes(which, name)
  {
    GroupsAreRead(name);
    assert Text.StartsWith(name, "smoke-") <==> "smoke-" <= name;
  }

  // ---------------------------------------------------------------- what is left

  /** These entries and no others, in their order: the rest went by name. */
  ghost function Staying(which: Which, listed: seq<Named>): seq<Named> {
    if listed == [] then []
    else (if Goes(which, listed[0].name) then [] else [listed[0]]) + Staying(which, listed[1..])
  }

  lemma {:induction false} UnpickedAreStaying(which: Which, listed: seq<Named>)
    ensures Unpicked(which, listed) == Staying(which, listed)
    ensures forall x :: x in Staying(which, listed) <==> x in listed && !Goes(which, x.name)
  {
    if listed != [] {
      PicksAreTheReserved(which, listed[0].name);
      UnpickedAreStaying(which, listed[1..]);
    }
  }

  /**
   What a completed teardown leaves: of the accounts and users those whose name lacks the prefix, of the
   resources and groups those whose resource name does not carry it after its last colon.
   */
  lemma EmptiedByNames(s: State)
    requires Sound(s)
    ensures forall x :: x in Emptied(s).accounts <==> x in s.accounts && !("smoke-" <= x.name)
    ensures forall x :: x in Emptied(s).users <==> x in s.users && !("smoke-" <= x.name)
    ensures forall x :: x in Emptied(s).groups <==> x in s.groups && !ReservedGroup(x.name)
    ensures forall r :: r in Emptied(s).resources <==> r in s.resources && !ReservedTail(r.name)
    ensures Emptied(s).accounts == Staying(Accounts, s.accounts) && Emptied(s).users == Staying(Users, s.users)
    ensures Emptied(s).groups == Staying(Groups, s.groups)
  {
    UnpickedAreStaying(Accounts, s.accounts);
    UnpickedAreStaying(Users, s.users);
    UnpickedAreStaying(Groups, s.groups);
    EmptiedKeepsTheUnreserved(s);
    forall r | r in s.resources ensures Reserved(r) <==> ReservedTail(r.name) {
      ResourcesAreRead(r.name);
    }
  }

  ghost predicate OnlyTheseGo(which: Which, listed: seq<Named>, now: seq<Named>) {
    && (forall x | x in now :: x in listed)
    && forall x | x in listed && x !in now :: Goes(which, x.name)
  }

  lemma TrimmedByNames(which: Which, listed: seq<Named>, now: seq<Named>)
    requires UniqueNamedIds(listed) && TrimmedList(which, listed, now)
    ensures OnlyTheseGo(which, listed, now)
  {
    var gone :| gone <= PickedIds(which, listed) && now == Without(listed, gone);
    WithoutAre(listed, gone);
    forall x | x in listed && x !in now ensures Goes(which, x.name) {
      PickedIdsArePicked(which, listed, x);
      PicksAreTheReserved(which, x.name);
    }
  }

  lemma ResourcesTrimmedByNames(all: seq<Resource>, now: seq<Resource>)
    requires UniqueIds(all) && TrimmedResources(all, now)
    ensures (forall r | r in now :: r in all) && forall r | r in all && r !in now :: ReservedTail(r.name)
  {
    var gone :| gone <= Removable(all) && now == Left(all, gone);
    LeftAre(all, gone);
    ClosedIsAllRemovable(all);
    forall r | r in all && r !in now ensures ReservedTail(r.name) {
      ReservedIdsAreReserved(all, r);
      ResourcesAreRead(r.name);
    }
  }

  /** At every cut of every history of teardowns, nothing has gone but what its name gives away. */
  lemma OnlyReservedNamesGo(s: State, runs: seq<seq<Fate>>)
    requires Sound(s)
    ensures var now := AfterRuns(s, runs);
            && OnlyTheseGo(Accounts, s.accounts, now.accounts) && OnlyTheseGo(Users, s.users, now.users)
            && OnlyTheseGo(Groups, s.groups, now.groups)
            && (forall r | r in now.resources :: r in s.resources)
            && forall r | r in s.resources && r !in now.resources :: ReservedTail(r.name)
  {
    InterruptedTeardownsConverge(s, runs, []);
    var now := AfterRuns(s, runs);
    TrimmedByNames(Accounts, s.accounts, now.accounts);
    TrimmedByNames(Users, s.users, now.users);
    TrimmedByNames(Groups, s.groups, now.groups);
    ResourcesTrimmedByNames(s.resources, now.resources);
  }

  // ---------------------------------------------------------------- the order of the lists

  /** A sweep touches its own list alone, and when it completes only what stays is left of it. */
  lemma SweepLeaves(w: World<State>, which: Which)
    requires UniqueNamedIds(ListOf(w.state, which))
    ensures var out := Sweep(w, which);
            && out.world.state == WithList(w.state, which, ListOf(out.world.state, which))
            && (out.result.Ok? ==> ListOf(out.world.state, which) == Staying(which, ListOf(w.state, which)))
  {
    var gone := SweepSweeps(w, which, 0);
    WithoutPickedIsUnpicked(which, ListOf(w.state, which));
    UnpickedAreStaying(which, ListOf(w.state, which));
  }

  lemma DeletionsLeave(w: World<State>)
    requires Forest(w.state.resources)
    ensures var out := DeleteResources(w);
            && out.world.state == w.state.(resources := out.world.state.resources)
            && (out.result.Ok? ==> forall r | r in out.world.state.resources :: !ReservedTail(r.name))
  {
    var all := w.state.resources;
    var gone := DeletionsExactly(w, 0);
    LeftAre(all, ReservedIds(all));
    forall r | r in all && r.id !in ReservedIds(all) ensures !ReservedTail(r.name) {
      ResourcesAreRead(r.name);
    }
  }

  /** Once a list has been touched, the ones before it hold nothing reserved. */
  ghost predicate InOrder(s: State, now: State) {
    && (now.resources != s.resources ==> now.groups == Staying(Groups, s.groups))
    && (now.accounts != s.accounts ==>
          now.groups == Staying(Groups, s.groups) && forall r | r in now.resources :: !ReservedTail(r.name))
    && (now.users != s.users ==>
          && now.groups == Staying(Groups, s.groups) && now.accounts == Staying(Accounts, s.accounts)
          && forall r | r in now.resources :: !ReservedTail(r.name))
  }

  lemma AccountsThenUsers(w: World<State>)
    requires UniqueNamedIds(w.state.accounts) && UniqueNamedIds(w.state.users)
    ensures var now := SweepAccounts(w).world.state;
            && now == w.state.(accounts := now.accounts, users := now.users)
            && (now.users != w.state.users ==> now.accounts == Staying(Accounts, w.state.accounts))
  {
    SweepLeaves(w, Accounts);
    SweepLeaves(Sweep(w, Accounts).world, Users);
  }

  /**
   Groups go before the resources they may be bound to, resources before accounts, accounts before
   users: wherever a teardown is cut off, a list is untouched unless those before it are done with.
   */
  lemma GroupsGoFirst(w: World<State>)
    requires Sound(w.state)
    ensures InOrder(w.state, TearDown(w).world.state)
  {
    SweepLeaves(w, Groups);
    var groups := Sweep(w, Groups);
    if groups.result.Ok? {
      DeletionsLeave(groups.world);
      var resources := DeleteResources(groups.world);
      if resources.result.Ok? {
        AccountsThenUsers(resources.world);
      }
    }
  }
}
