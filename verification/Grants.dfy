/**
 A resident's grants as group memberships (`authz/catalog.toml` rule 3 and the `granted-operator`
 role): the group is created with the first grant and deleted when its last member leaves.
 */
module Grants {
  import opened Common
  import opened Naming
  import opened Remote
  import opened Access

  datatype Change = Grant(user: string, device: nat) | Revoke(user: string, device: nat)

  /** Memberships as (user, group); bindings of the `granted-operator` role as (group, device). */
  datatype Book = Book(members: set<(string, string)>, bound: set<(string, nat)>)

  predicate IsDevice(t: Tree, d: nat) { d in t && t[d].kind == Device && ValidSlug(t[d].slug) }

  function GrantGroup(t: Tree, d: nat): (group: string)
    requires IsDevice(t, d)
    ensures GroupName("granted-operator", Device, t[d].slug) == Ok(group)
  {
    assert ValidSlug("granted-operator");
    SlugsCarryNoSeparator("granted-operator");
    GroupName("granted-operator", Device, t[d].slug).value
  }

  function GroupsOf(book: Book, user: string): set<string> {
    set m | m in book.members && m.0 == user :: m.1
  }

  predicate HasMembers(book: Book, group: string) {
    exists m | m in book.members :: m.1 == group
  }

  function DropIfEmpty(book: Book, group: string): Book {
    if HasMembers(book, group) then book
    else book.(bound := set b | b in book.bound && b.0 != group)
  }

  /** The group cannot be bound to this device: it is bound to another, and the server allows one scope. */
  predicate Refused(rule: ScopeRule, book: Book, group: string, device: nat) {
    rule == OneScope && exists b | b in book.bound :: b.0 == group && b.1 != device
  }

  /** A grant binds the group before it adds the member, and goes no further if the binding is refused. */
  function Step(t: Tree, rule: ScopeRule, book: Book, change: Change): Book
    requires IsDevice(t, change.device)
  {
    var g := GrantGroup(t, change.device);
    match change
    case Grant(u, d) =>
      if Refused(rule, book, g, d) then book else Book(book.members + {(u, g)}, book.bound + {(g, d)})
    case Revoke(u, d) => DropIfEmpty(book.(members := book.members - {(u, g)}), g)
  }

  predicate OnDevices(t: Tree, history: seq<Change>) {
    forall i | 0 <= i < |history| :: IsDevice(t, history[i].device)
  }

  function Replay(t: Tree, rule: ScopeRule, history: seq<Change>): Book
    requires OnDevices(t, history)
  {
    if history == [] then Book({}, {})
    else Step(t, rule, Replay(t, rule, history[..|history| - 1]), history[|history| - 1])
  }

  /** The last word on (user, device) was a grant. */
  predicate Stands(history: seq<Change>, user: string, device: nat) {
    if history == [] then false
    else
      var last := history[|history| - 1];
      if last.user == user && last.device == device then last.Grant?
      else Stands(history[..|history| - 1], user, device)
  }

  function AllBindings(t: Tree, book: Book): Binding -> bool {
    (b: Binding) => Structural(t, b) || (b.role == "granted-operator" && (b.group, b.scope) in book.bound)
  }

  ghost predicate MayOperate(t: Tree, book: Book, user: string, device: nat) {
    Operates(t, AllBindings(t, book), GroupsOf(book, user), device)
  }

  ghost predicate DistinctDevices(t: Tree) {
    forall d, e | IsDevice(t, d) && IsDevice(t, e) && t[d].slug == t[e].slug :: d == e
  }

  lemma GrantGroupsTellSlugs(t: Tree, d: nat, e: nat)
    requires IsDevice(t, d) && IsDevice(t, e)
    ensures GrantGroup(t, d) == GrantGroup(t, e) <==> t[d].slug == t[e].slug
  {
    if GrantGroup(t, d) == GrantGroup(t, e) {
      SlugsCarryNoSeparator("granted-operator");
      GroupNamesAreInjective("granted-operator", Device, t[d].slug, "granted-operator", Device, t[e].slug);
    }
  }

  /** Every name in the book is some device's group, and every binding is to a device of that group. */
  ghost predicate BookInv(t: Tree, book: Book) {
    && (forall m | m in book.members :: exists d :: IsDevice(t, d) && m.1 == GrantGroup(t, d))
    && (forall b | b in book.bound :: IsDevice(t, b.1) && b.0 == GrantGroup(t, b.1))
  }

  lemma {:induction false} ReplayKeepsInv(t: Tree, rule: ScopeRule, history: seq<Change>)
    requires OnDevices(t, history)
    ensures BookInv(t, Replay(t, rule, history))
  {
    if history != [] {
      ReplayKeepsInv(t, rule, history[..|history| - 1]);
    }
  }

  /** Whatever was granted and revoked, a group is bound to something exactly while it has a member. */
  lemma {:induction false} BoundWhileHeld(t: Tree, rule: ScopeRule, history: seq<Change>, group: string)
    requires OnDevices(t, history)
    ensures var book := Replay(t, rule, history);
            (exists b :: b in book.bound && b.0 == group) <==> HasMembers(book, group)
  {
    if history != [] {
      var before, last := Replay(t, rule, history[..|history| - 1]), history[|history| - 1];
      BoundWhileHeld(t, rule, history[..|history| - 1], group);
      var book := Step(t, rule, before, last);
      if last.Grant? && group == GrantGroup(t, last.device) && !Refused(rule, before, group, last.device) {
        assert (group, last.device) in book.bound && (last.user, group) in book.members;
      }
      if m :| m in book.members && m.1 == group && m in before.members {
        var b :| b in before.bound && b.0 == group;
        assert b in book.bound;
      }
      if b :| b in book.bound && b.0 == group && b in before.bound {
        var m :| m in before.members && m.1 == group;
        assert group == GrantGroup(t, last.device) || m in book.members;
      }
    }
  }

  lemma {:induction false} DevicesCoverThemselves(t: Tree, d: nat, x: nat, n: nat)
    requires Shaped(t) && IsDevice(t, d) && Climbs(t, d, x, n)
    ensures d == x
    decreases n
  {
    if n > 0 {
      DevicesCoverThemselves(t, d, t[x].parent.value, n - 1);
    }
  }

  lemma DeviceGroupsBelongToDevices(t: Tree, b: Binding, role: string, slug: string)
    requires Structural(t, b) && GroupName(role, Device, slug) == Ok(b.group)
    ensures t[b.scope].kind == Device
  {
    GroupNamesAreInjective(b.role, t[b.scope].kind, t[b.scope].slug, role, Device, slug);
  }

  lemma StructuralGroupsAreNotGrants(t: Tree, b: Binding, e: nat)
    requires Structural(t, b) && IsDevice(t, e)
    ensures b.group != GrantGroup(t, e)
  {
    if b.group == GrantGroup(t, e) {
      DeviceGroupsBelongToDevices(t, b, "granted-operator", t[e].slug);
    }
  }

  ghost predicate Reaches(t: Tree, book: Book, user: string, d: nat)
    requires IsDevice(t, d)
  {
    (user, GrantGroup(t, d)) in book.members && (GrantGroup(t, d), d) in book.bound
  }

  lemma GroupsOfAre(book: Book, user: string, group: string)
    ensures group in GroupsOf(book, user) <==> (user, group) in book.members
  {
  }

  lemma GrantsReachOnly(t: Tree, book: Book, user: string, d: nat, b: Binding)
    requires Shaped(t) && IsDevice(t, d) && BookInv(t, book)
    requires AllBindings(t, book)(b) && b.group in GroupsOf(book, user) && Covers(t, b.scope, d)
    ensures Reaches(t, book, user, d)
  {
    GroupsOfAre(book, user, b.group);
    assert (user, b.group).1 == b.group;
    var e :| IsDevice(t, e) && b.group == GrantGroup(t, e);
    if Structural(t, b) {
      StructuralGroupsAreNotGrants(t, b, e);
      assert false;
    }
    var n: nat :| Climbs(t, b.scope, d, n);
    assert (b.group, b.scope).0 == b.group;
    DevicesCoverThemselves(t, b.scope, d, n);
  }

  lemma GrantsReachAll(t: Tree, book: Book, user: string, d: nat)
    requires IsDevice(t, d) && Reaches(t, book, user, d)
    ensures MayOperate(t, book, user, d)
  {
    var b := Binding("granted-operator", GrantGroup(t, d), d);
    ThreeRolesOperate("granted-operator");
    GroupsOfAre(book, user, b.group);
    assert Climbs(t, d, d, 0);
    assert AllBindings(t, book)(b);
  }

  /** What the grants come to: membership of the device's own group, and that group bound to it. */
  lemma GrantsReach(t: Tree, book: Book, user: string, d: nat)
    requires Shaped(t) && IsDevice(t, d) && BookInv(t, book)
    ensures MayOperate(t, book, user, d) <==> Reaches(t, book, user, d)
  {
    if MayOperate(t, book, user, d) {
      var b: Binding :| AllBindings(t, book)(b) && b.group in GroupsOf(book, user) && GrantsOperate(b.role) &&
        Covers(t, b.scope, d);
      GrantsReachOnly(t, book, user, d, b);
    }
    if Reaches(t, book, user, d) {
      GrantsReachAll(t, book, user, d);
    }
  }

  /** Where devices are told apart by their slugs no grant is refused, whatever the rule. */
  lemma DistinctDevicesAreNotRefused(t: Tree, rule: ScopeRule, book: Book, d: nat)
    requires DistinctDevices(t) && IsDevice(t, d) && BookInv(t, book)
    ensures !Refused(rule, book, GrantGroup(t, d), d)
  {
    forall b | b in book.bound && b.0 == GrantGroup(t, d) ensures b.1 == d {
      GrantGroupsTellSlugs(t, b.1, d);
    }
  }

  /** On distinct devices the book is the history's standing grants, and each is bound. */
  lemma {:induction false} BookFollowsHistory(t: Tree, rule: ScopeRule, history: seq<Change>, user: string, d: nat)
    requires DistinctDevices(t) && OnDevices(t, history) && IsDevice(t, d)
    ensures (user, GrantGroup(t, d)) in Replay(t, rule, history).members <==> Stands(history, user, d)
    ensures Stands(history, user, d) ==> (GrantGroup(t, d), d) in Replay(t, rule, history).bound
  {
    if history != [] {
      var before := history[..|history| - 1];
      var last := history[|history| - 1];
      BookFollowsHistory(t, rule, before, user, d);
      ReplayKeepsInv(t, rule, before);
      DistinctDevicesAreNotRefused(t, rule, Replay(t, rule, before), last.device);
      GrantGroupsTellSlugs(t, last.device, d);
      if last.Revoke? && Stands(history, user, d) {
        var g := GrantGroup(t, d);
        var kept := Replay(t, rule, before).members - {(last.user, GrantGroup(t, last.device))};
        assert (user, g) in kept && (user, g).1 == g;
      }
    }
  }

  ghost predicate ExactAfter(t: Tree, rule: ScopeRule, history: seq<Change>) {
    OnDevices(t, history) && forall user, d | IsDevice(t, d) ::
      MayOperate(t, Replay(t, rule, history), user, d) <==> Stands(history, user, d)
  }

  lemma DistinctDevicesAreExact(t: Tree, rule: ScopeRule, history: seq<Change>)
    requires Shaped(t) && DistinctDevices(t) && OnDevices(t, history)
    ensures ExactAfter(t, rule, history)
  {
    ReplayKeepsInv(t, rule, history);
    forall user, d | IsDevice(t, d)
      ensures MayOperate(t, Replay(t, rule, history), user, d) <==> Stands(history, user, d)
    {
      GrantsReach(t, Replay(t, rule, history), user, d);
      BookFollowsHistory(t, rule, history, user, d);
    }
  }

  /** Two grants, by two people on two devices of one slug, which have one group. */
  lemma TwoGrants(t: Tree, rule: ScopeRule, history: seq<Change>, d: nat, e: nat)
    requires IsDevice(t, d) && IsDevice(t, e) && t[d].slug == t[e].slug && d != e
    requires history == [Grant("first", d), Grant("second", e)]
    ensures OnDevices(t, history) && GrantGroup(t, d) == GrantGroup(t, e)
    ensures var g := GrantGroup(t, d);
            Replay(t, rule, history) ==
            if rule == OneScope then Book({("first", g)}, {(g, d)})
            else Book({("first", g), ("second", g)}, {(g, d), (g, e)})
    ensures !Stands(history, "first", e) && Stands(history, "second", e)
  {
    assert history[..1] == [Grant("first", d)] && history[..1][..0] == [];
    GrantGroupsTellSlugs(t, d, e);
    var g := GrantGroup(t, d);
    var one := Book({("first", g)}, {(g, d)});
    assert Replay(t, rule, history[..1]) == one;
    assert (g, d) in one.bound && (g, d).0 == g && (g, d).1 == d;
    assert !Stands(history[..1], "first", e);
  }

  /**
   Sharing a group, both members operate both devices, unless the server allows one scope; then the
   second is refused.
   */
  lemma SharedSlugsAreNot(t: Tree, rule: ScopeRule, history: seq<Change>, d: nat, e: nat)
    requires Shaped(t) && IsDevice(t, d) && IsDevice(t, e) && t[d].slug == t[e].slug && d != e
    requires history == [Grant("first", d), Grant("second", e)]
    ensures OnDevices(t, history) && !Stands(history, "first", e) && Stands(history, "second", e)
    ensures MayOperate(t, Replay(t, rule, history), "first", e) <==> rule != OneScope
    ensures MayOperate(t, Replay(t, rule, history), "second", e) <==> rule != OneScope
  {
    TwoGrants(t, rule, history, d, e);
    ReplayKeepsInv(t, rule, history);
    GrantsReach(t, Replay(t, rule, history), "first", e);
    GrantsReach(t, Replay(t, rule, history), "second", e);
  }

  lemma SharedSlugsAreNotExact(t: Tree, rule: ScopeRule, d: nat, e: nat) returns (history: seq<Change>)
    requires Shaped(t) && IsDevice(t, d) && IsDevice(t, e) && t[d].slug == t[e].slug && d != e
    ensures OnDevices(t, history) && !ExactAfter(t, rule, history)
  {
    history := [Grant("first", d), Grant("second", e)];
    SharedSlugsAreNot(t, rule, history, d, e);
  }

  /** After every sequence of grants and revokes, exactly the standing grants operate: under any rule of
      the server, if and only if no two devices share a slug. */
  lemma GrantsAreExactIff(t: Tree, rule: ScopeRule)
    requires Shaped(t)
    ensures (forall history | OnDevices(t, history) :: ExactAfter(t, rule, history)) <==> DistinctDevices(t)
  {
    if DistinctDevices(t) {
      forall history | OnDevices(t, history) ensures ExactAfter(t, rule, history) {
        DistinctDevicesAreExact(t, rule, history);
      }
    } else {
      var d, e :| IsDevice(t, d) && IsDevice(t, e) && t[d].slug == t[e].slug && d != e;
      var history := SharedSlugsAreNotExact(t, rule, d, e);
    }
  }

  // ---------------------------------------------------------------- staff who hold grants

  lemma StaffGroupsAreNotGrants(t: Tree, e: nat)
    requires IsDevice(t, e)
    ensures !StaffGroup(GrantGroup(t, e))
  {
    if StaffGroup(GrantGroup(t, e)) {
      var role, kind, slug :| IsStaffRole(role) && GroupName(role, kind, slug) == Ok(GrantGroup(t, e));
      GroupNamesAreInjective("granted-operator", Device, t[e].slug, role, kind, slug);
    }
  }

  lemma NoGrantIsBoundToStaff(t: Tree, book: Book, group: string)
    requires BookInv(t, book) && StaffGroup(group)
    ensures forall d :: (group, d) !in book.bound
  {
    forall x | x in book.bound ensures x.0 != group {
      StaffGroupsAreNotGrants(t, x.1);
    }
    forall d ensures (group, d) !in book.bound {
      assert (group, d).0 == group;
    }
  }

  /** In an apartment no binding of a staff group grants operation. */
  lemma StaffGroupsOpenNoApartment(t: Tree, book: Book, staff: set<string>, a: nat, d: nat, b: Binding)
    requires Shaped(t) && ValidSlugs(t) && StaffOnly(staff) && BookInv(t, book) && b.group in staff
    requires a in t && t[a].kind == Apartment && Covers(t, a, d)
    ensures AllBindings(t, book)(b) && GrantsOperate(b.role) ==> !Covers(t, b.scope, d)
  {
    NoStaffRoleOperatesAnApartment(t, staff, a, d);
    NoGrantIsBoundToStaff(t, book, b.group);
    if AllBindings(t, book)(b) {
      assert StructuralBindings(t)(b);
    }
  }

  lemma MoreGroupsOperateMore(t: Tree, bound: Binding -> bool, groups: set<string>, more: set<string>, d: nat)
    requires groups <= more && Operates(t, bound, groups, d)
    ensures Operates(t, bound, more, d)
  {
  }

  /**
   Staff who also hold grants: whatever staff groups a user is in, after any history it operates a device
   in an apartment if and only if its own grant on that device stands.
   */
  lemma StaffOperateApartmentsByGrantExactly(t: Tree, rule: ScopeRule, history: seq<Change>, staff: set<string>,
                                             user: string, a: nat, d: nat)
    requires Shaped(t) && ValidSlugs(t) && DistinctDevices(t) && OnDevices(t, history) && StaffOnly(staff)
    requires IsDevice(t, d) && a in t && t[a].kind == Apartment && Covers(t, a, d)
    ensures var book := Replay(t, rule, history);
            Operates(t, AllBindings(t, book), staff + GroupsOf(book, user), d) <==> Stands(history, user, d)
  {
    var book := Replay(t, rule, history);
    var bound, groups := AllBindings(t, book), staff + GroupsOf(book, user);
    ReplayKeepsInv(t, rule, history);
    DistinctDevicesAreExact(t, rule, history);
    assert MayOperate(t, book, user, d) <==> Stands(history, user, d);
    if MayOperate(t, book, user, d) {
      MoreGroupsOperateMore(t, bound, GroupsOf(book, user), groups, d);
    }
    if Operates(t, bound, groups, d) {
      var b: Binding :| bound(b) && b.group in groups && GrantsOperate(b.role) && Covers(t, b.scope, d);
      if b.group in staff {
        StaffGroupsOpenNoApartment(t, book, staff, a, d, b);
        assert false;
      }
      assert Operates(t, bound, GroupsOf(book, user), d);
    }
  }
}
