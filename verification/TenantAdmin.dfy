/**
 One administrator per tenant (`stages/tenant_admin.rs`, `provision_tenant_admin` in
 `hand_rolled.rs`): a password stored before the account that has it, then four calls.
 */
module TenantAdmin {
  import opened Common
  import opened Remote
  import Listing

  /** A user's id is its place in the tenant's list. */
  datatype User = User(name: string, password: nat, active: bool)

  /** The tenant on the server, whether its role is seeded, how it wraps lists; and the stored password. */
  datatype State = State(users: seq<User>, admins: set<nat>, seeded: bool, wrapped: bool, stored: Option<nat>)

  function NamesOf(users: seq<User>): seq<string> {
    seq(|users|, k requires 0 <= k < |users| => users[k].name)
  }

  function Stored(s: State, password: nat): State { s.(stored := Some(password)) }

  function Credentials(w: World<State>): Step<State, nat> {
    StoredOrFresh(w, w.state.stored, Stored)
  }

  /** What a search by name answers. */
  function Found(s: State, name: string): Option<nat> {
    Listing.Resolve(Listing.Envelope(Listing.Rows(NamesOf(s.users)), s.wrapped), name)
  }

  /** Create the user, or on a conflict find it by name. */
  function CreateOrFind(w: World<State>, name: string, password: nat): Step<State, nat> {
    if name !in NamesOf(w.state.users) then
      Call(w, w.state.(users := w.state.users + [User(name, password, false)]), |w.state.users|)
    else
      var conflict := Call(w, w.state, ());
      if conflict.result.Err? then Step(conflict.world, Err(conflict.result.error))
      else
        var search := Call(conflict.world, w.state, ());
        if search.result.Err? then Step(search.world, Err(search.result.error))
        else
          match Found(w.state, name)
          case Some(id) => Step(search.world, Ok(id))
          case None => Step(search.world, Err(Missing))
  }

  function Activated(users: seq<User>, id: nat): seq<User> {
    if id < |users| then users[id := users[id].(active := true)] else users
  }

  /** Activate, look the role up, assign it within the tenant. */
  function ActivateAndAssign(w: World<State>, id: nat): Step<State, nat> {
    var activate := Call(w, w.state.(users := Activated(w.state.users, id)), id);
    if activate.result.Err? then activate
    else
      var roles := Call(activate.world, activate.world.state, id);
      if roles.result.Err? then roles
      else if !roles.world.state.seeded then Step(roles.world, Err(Missing))
      else Call(roles.world, roles.world.state.(admins := roles.world.state.admins + {id}), id)
  }

  function Provision(w: World<State>, name: string): Step<State, nat> {
    var creds := Credentials(w);
    if creds.result.Err? then creds
    else
      var user := CreateOrFind(creds.world, name, creds.result.value);
      if user.result.Err? then user else ActivateAndAssign(user.world, user.result.value)
  }

  // ---------------------------------------------------------------- what is kept

  predicate Is(s: State, k: nat, name: string) { k < |s.users| && s.users[k].name == name }

  /** Usernames are unique in a tenant: the server refuses a second. */
  ghost predicate OneOfName(s: State, name: string) {
    forall j: nat, k: nat | Is(s, j, name) && Is(s, k, name) :: j == k
  }

  /** The account's password, if there is the account, is the stored one. */
  ghost predicate WriteAhead(s: State, name: string) {
    forall k: nat | Is(s, k, name) :: s.stored == Some(s.users[k].password)
  }

  ghost predicate Unused(w: World<State>) {
    (forall k | 0 <= k < |w.state.users| :: w.state.users[k].password < w.next)
    && (w.state.stored.Some? ==> w.state.stored.value < w.next)
  }

  /** The account is active, administers the tenant, and the stored password is its. */
  ghost predicate SignsIn(s: State, k: nat, name: string) {
    Is(s, k, name) && s.users[k].active && k in s.admins && s.stored == Some(s.users[k].password)
  }

  /** Nobody's name or password has changed, and the stored password only if there was none. */
  ghost predicate Kept(s: State, s': State) {
    && |s.users| <= |s'.users|
    && (forall k | 0 <= k < |s.users| ::
          s'.users[k].name == s.users[k].name && s'.users[k].password == s.users[k].password)
    && (s.stored.Some? ==> s'.stored == s.stored) && s.admins <= s'.admins
  }

  lemma NamesAre(users: seq<User>, name: string)
    ensures name in NamesOf(users) <==> exists k | 0 <= k < |users| :: users[k].name == name
  {
    if k :| 0 <= k < |users| && users[k].name == name {
      assert NamesOf(users)[k] == name;
    }
  }

  ghost predicate UserOutcome(s: State, out: Step<State, nat>, name: string, password: nat) {
    var s' := out.world.state;
    && (s'.users == s.users || ((forall k: nat :: !Is(s, k, name)) &&
        s'.users == s.users + [User(name, password, false)]))
    && s' == s.(users := s'.users) && (out.result.Ok? ==> Is(s', out.result.value, name))
  }

  lemma FoundIsTheUser(s: State, name: string)
    ensures Found(s, name).Some? ==> Is(s, Found(s, name).value, name)
    ensures name !in NamesOf(s.users) ==> forall k: nat :: !Is(s, k, name)
  {
    NamesAre(s.users, name);
    Listing.ResolveFindsTheUser(NamesOf(s.users), s.wrapped, name);
  }

  lemma CreateOrFindChanges(w: World<State>, name: string, password: nat)
    ensures UserOutcome(w.state, CreateOrFind(w, name, password), name, password)
    ensures CreateOrFind(w, name, password).world.next == w.next
  {
    FoundIsTheUser(w.state, name);
  }

  ghost predicate SameButActive(users: seq<User>, users': seq<User>) {
    |users'| == |users| && forall k | 0 <= k < |users| :: users'[k] == users[k].(active := users'[k].active)
  }

  lemma AssignChanges(w: World<State>, id: nat)
    ensures var out := ActivateAndAssign(w, id);
            var s' := out.world.state;
            && SameButActive(w.state.users, s'.users) && s'.stored == w.state.stored && s'.seeded == w.state.seeded
            && w.state.admins <= s'.admins && out.world.next == w.next
  {
  }

  lemma AssignCompletes(w: World<State>, id: nat)
    requires ActivateAndAssign(w, id).result.Ok?
    ensures var out := ActivateAndAssign(w, id);
            var s' := out.world.state;
            out.result.value == id && id in s'.admins && s'.seeded && (id < |s'.users| ==> s'.users[id].active)
  {
  }

  /** The account a run adds: the first of its name, with the stored password. */
  ghost predicate Added(s: State, s': State, name: string) {
    |s'.users| > |s.users| ==>
      && |s'.users| == |s.users| + 1 && Is(s', |s.users|, name)
      && s'.stored == Some(s'.users[|s.users|].password) && forall j: nat :: !Is(s, j, name)
  }

  ghost predicate Outcome(s: State, next: nat, out: Step<State, nat>, name: string) {
    var s' := out.world.state;
    && Kept(s, s') && Added(s, s', name) && out.world.next >= next && s'.seeded == s.seeded
    && (s'.stored != s.stored ==> s'.stored == Some(next) && out.world.next > next)
    && (out.result.Ok? ==>
          && Is(s', out.result.value, name) && s'.users[out.result.value].active
          && out.result.value in s'.admins && s'.stored.Some? && s'.seeded)
  }

  lemma AfterCredentials(w: World<State>, name: string, password: nat)
    requires w.state.stored == Some(password)
    ensures var user := CreateOrFind(w, name, password);
            var out := if user.result.Err? then user else ActivateAndAssign(user.world, user.result.value);
            Outcome(w.state, w.next, out, name)
  {
    CreateOrFindChanges(w, name, password);
    var user := CreateOrFind(w, name, password);
    if user.result.Ok? {
      AssignChanges(user.world, user.result.value);
      if ActivateAndAssign(user.world, user.result.value).result.Ok? {
        AssignCompletes(user.world, user.result.value);
      }
    }
  }

  lemma ProvisionChanges(w: World<State>, name: string)
    ensures Outcome(w.state, w.next, Provision(w, name), name)
  {
    var creds := Credentials(w);
    if creds.result.Ok? {
      AfterCredentials(creds.world, name, creds.result.value);
      assert forall j: nat :: Is(creds.world.state, j, name) <==> Is(w.state, j, name);
    }
  }

  // ---------------------------------------------------------------- everyone else

  /** Everyone but the account of this name is as before: their standing as administrators, and all else about them. */
  ghost predicate OthersStand(s: State, s': State, name: string) {
    && |s.users| <= |s'.users|
    && forall k: nat | !Is(s', k, name) ::
        && (k in s'.admins <==> k in s.admins)
        && (k < |s'.users| ==> k < |s.users| && s'.users[k] == s.users[k])
  }

  lemma OthersStandOn(a: State, b: State, c: State, name: string)
    requires OthersStand(a, b, name) && OthersStand(b, c, name)
    ensures OthersStand(a, c, name)
  {
    forall k: nat | !Is(c, k, name) ensures !Is(b, k, name) {
    }
  }

  lemma CreatingLeavesOthers(w: World<State>, name: string, password: nat)
    ensures OthersStand(w.state, CreateOrFind(w, name, password).world.state, name)
  {
    CreateOrFindChanges(w, name, password);
  }

  lemma AssigningLeavesOthers(w: World<State>, id: nat, name: string)
    requires Is(w.state, id, name)
    ensures OthersStand(w.state, ActivateAndAssign(w, id).world.state, name)
  {
  }

  /**
   Wherever a run is cut off, nobody but the account of that name has become an administrator or been
   activated, and nothing else about anyone else has changed.
   */
  lemma ProvisionLeavesOthers(w: World<State>, name: string)
    ensures OthersStand(w.state, Provision(w, name).world.state, name)
  {
    var creds := Credentials(w);
    if creds.result.Ok? {
      CreatingLeavesOthers(creds.world, name, creds.result.value);
      CreateOrFindChanges(creds.world, name, creds.result.value);
      var user := CreateOrFind(creds.world, name, creds.result.value);
      if user.result.Ok? {
        AssigningLeavesOthers(user.world, user.result.value, name);
        OthersStandOn(creds.world.state, user.world.state, Provision(w, name).world.state, name);
      }
    }
  }

  // ---------------------------------------------------------------- activation first

  ghost predicate AdministratorsAreActive(s: State) {
    forall k | k in s.admins :: k < |s.users| && s.users[k].active
  }

  lemma AssigningActivatesFirst(w: World<State>, id: nat)
    requires AdministratorsAreActive(w.state) && id < |w.state.users|
    ensures AdministratorsAreActive(ActivateAndAssign(w, id).world.state)
  {
  }

  /** Wherever a run is cut off, no account administers the tenant that is not active. */
  lemma AdministratorsStayActive(w: World<State>, name: string)
    requires AdministratorsAreActive(w.state)
    ensures AdministratorsAreActive(Provision(w, name).world.state)
  {
    var creds := Credentials(w);
    if creds.result.Ok? {
      CreateOrFindChanges(creds.world, name, creds.result.value);
      var user := CreateOrFind(creds.world, name, creds.result.value);
      if user.result.Ok? {
        AssigningActivatesFirst(user.world, user.result.value);
      }
    }
  }

  ghost predicate NobodyActivated(s: State, s': State) {
    forall k: nat | k < |s'.users| && s'.users[k].active :: k < |s.users| && s.users[k].active
  }

  /** An account is made inactive: a run cut off within the call that makes it has activated nobody. */
  lemma CreationActivatesNobody(w: World<State>, name: string)
    requires |w.fates| <= if w.state.stored.Some? then 1 else 2
    ensures NobodyActivated(w.state, Provision(w, name).world.state)
  {
    var creds := Credentials(w);
    if creds.result.Ok? {
      CreateOrFindChanges(creds.world, name, creds.result.value);
      assert |creds.world.fates| <= 1;
    }
  }

  // ---------------------------------------------------------------- one run

  lemma OneOfNameStays(s: State, s': State, name: string)
    requires OneOfName(s, name) && Kept(s, s') && Added(s, s', name)
    ensures OneOfName(s', name)
  {
    forall k: nat | Is(s', k, name) && k < |s.users| ensures Is(s, k, name) {
    }
  }

  /** Wherever a run is cut off, the account has its password in the stored file. */
  lemma ProvisionWritesAhead(w: World<State>, name: string)
    requires WriteAhead(w.state, name) && OneOfName(w.state, name)
    ensures WriteAhead(Provision(w, name).world.state, name) && OneOfName(Provision(w, name).world.state, name)
  {
    ProvisionChanges(w, name);
    var s, s' := w.state, Provision(w, name).world.state;
    OneOfNameStays(s, s', name);
    forall k: nat | Is(s', k, name) && k < |s.users| ensures Is(s, k, name) {
    }
  }

  /**
   A run that completes leaves an active administrator of that name. The stored credentials sign in
   as it if and only if the run found no such account, or found its password stored.
   */
  lemma CompletedRunSignsInExactly(w: World<State>, name: string)
    requires OneOfName(w.state, name) && Unused(w) && Provision(w, name).result.Ok?
    ensures var out := Provision(w, name);
            SignsIn(out.world.state, out.result.value, name) <==> WriteAhead(w.state, name)
  {
    ProvisionChanges(w, name);
    var out := Provision(w, name);
    var s, s', id := w.state, out.world.state, out.result.value;
    if id < |s.users| {
      assert Is(s, id, name);
    }
    if SignsIn(s', id, name) {
      forall k: nat | Is(s, k, name) ensures s.stored == Some(s.users[k].password) {
        assert Is(s', k, name) && k == id;
      }
    }
  }

  /** Where the account exists, a run adds none, keeps its password and answers, if it does, with it. */
  lemma ExistingAccountIsResolved(w: World<State>, name: string, id: nat)
    requires OneOfName(w.state, name) && Is(w.state, id, name)
    ensures var out := Provision(w, name);
            && (out.result.Ok? ==> out.result.value == id)
            && |out.world.state.users| == |w.state.users| && Kept(w.state, out.world.state)
  {
    ProvisionChanges(w, name);
    var out := Provision(w, name);
    if out.result.Ok? {
      assert Is(w.state, out.result.value, name);
    }
  }

  /** A second run resolves the same account and does not touch its password. */
  lemma ARerunResolvesTheSameAccount(w: World<State>, again: World<State>, name: string)
    requires OneOfName(w.state, name) && Provision(w, name).result.Ok? && again.state == Provision(w, name).world.state
    ensures var out := Provision(again, name);
            && (out.result.Ok? ==> out.result.value == Provision(w, name).result.value)
            && |out.world.state.users| == |again.state.users| && Kept(again.state, out.world.state)
  {
    ProvisionChanges(w, name);
    OneOfNameStays(w.state, again.state, name);
    ExistingAccountIsResolved(again, name, Provision(w, name).result.value);
  }

  // ---------------------------------------------------------------- an answered run completes

  lemma CredentialsAnswered(w: World<State>, rest: nat)
    ensures Clear(w.fates, 1 + rest) ==> Credentials(w).result.Ok? && Clear(Credentials(w).world.fates, rest)
    ensures Credentials(w).world.state == w.state.(stored := Credentials(w).world.state.stored)
  {
  }

  lemma CreateOrFindAnswered(w: World<State>, name: string, password: nat, rest: nat)
    ensures var out := CreateOrFind(w, name, password);
            Clear(w.fates, 2 + rest) ==> out.result.Ok? && Clear(out.world.fates, rest)
  {
    NamesAre(w.state.users, name);
    Listing.ResolveFindsTheUser(NamesOf(w.state.users), w.state.wrapped, name);
    AnsweredCall(w, w.state, (), 1 + rest);
  }

  lemma AssignAnswered(w: World<State>, id: nat, rest: nat)
    ensures var out := ActivateAndAssign(w, id);
            Clear(w.fates, 3 + rest) ==>
              (out.result.Ok? <==> w.state.seeded) && (out.result.Ok? ==> Clear(out.world.fates, rest))
  {
    AnsweredCall(w, w.state.(users := Activated(w.state.users, id)), id, 2 + rest);
  }

  /** Answered, a run completes exactly if the tenant's role is seeded; six answers are enough. */
  lemma AnsweredProvisionCompletesExactly(w: World<State>, name: string, rest: nat)
    ensures var out := Provision(w, name);
            Clear(w.fates, 6 + rest) ==>
              (out.result.Ok? <==> w.state.seeded) && (out.result.Ok? ==> Clear(out.world.fates, rest))
  {
    CredentialsAnswered(w, 5 + rest);
    var creds := Credentials(w);
    if creds.result.Ok? {
      CreateOrFindAnswered(creds.world, name, creds.result.value, 3 + rest);
      CreateOrFindChanges(creds.world, name, creds.result.value);
      var user := CreateOrFind(creds.world, name, creds.result.value);
      if user.result.Ok? {
        AssignAnswered(user.world, user.result.value, rest);
      }
    }
  }

  /** An active administrator whose stored password is gone. */
  function PasswordLost(): State { State([User("villa-admin", 0, true)], {0}, true, true, None) }

  /** The case that fails: the run completes on the old account with a password that is not its. */
  lemma ALostPasswordDoesNotSignIn()
    ensures exists fates :: var out := Provision(World(PasswordLost(), fates, 1), "villa-admin");
                            out.result.Ok? && !SignsIn(out.world.state, out.result.value, "villa-admin")
  {
    var w := World(PasswordLost(), seq(6, _ => Answered), 1);
    AnsweredProvisionCompletesExactly(w, "villa-admin", 0);
    assert Is(w.state, 0, "villa-admin") && !WriteAhead(w.state, "villa-admin");
    CompletedRunSignsInExactly(w, "villa-admin");
  }

  lemma OutcomeIsUnused(w: World<State>, out: Step<State, nat>, name: string)
    requires Unused(w) && Outcome(w.state, w.next, out, name)
    ensures Unused(out.world)
  {
  }

  lemma ProvisionUsesFreshPasswords(w: World<State>, name: string)
    requires Unused(w)
    ensures Unused(Provision(w, name).world)
  {
    ProvisionChanges(w, name);
    OutcomeIsUnused(w, Provision(w, name), name);
  }
}
