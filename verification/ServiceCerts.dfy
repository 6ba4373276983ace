/**
 One service account with one certificate per service of a tenant
 (`tools/domo-bootstrap/src/stages/service_certs.rs`). Keys are numbers, a fresh one for each
 generated pair; a certificate matches a key by carrying its number.
 */
module ServiceCerts {
  import opened Common
  import opened Remote

  /** Accounts and certificates are identified by their place in the server's lists. */
  datatype Cert = Cert(key: nat, issuer: nat, tenant: nat, bound: Option<nat>, active: bool)

  /** The server's view of one tenant, and the stored keys and certificate files by account name. */
  datatype State = State(accounts: seq<string>, certs: seq<Cert>, keys: map<string, nat>, files: map<string, nat>)

  /** The tenant acting and the signing CA passed for it. */
  datatype Tenant = Tenant(id: nat, issuer: nat)

  function FindAccount(accounts: seq<string>, name: string): (r: Option<nat>)
    ensures r.None? <==> name !in accounts
    ensures r.Some? ==> r.value < |accounts| && accounts[r.value] == name && name !in accounts[..r.value]
  {
    if accounts == [] then None
    else
      var n := |accounts| - 1;
      var before := FindAccount(accounts[..n], name);
      assert accounts == accounts[..n] + [accounts[n]];
      if before.Some? then
        assert accounts[..n][..before.value] == accounts[..before.value];
        before
      else if accounts[n] == name then Some(n)
      else None
  }

  /** Active and bound to this account. */
  predicate Serves(c: Cert, account: nat) { c.active && c.bound.Some? && c.bound.value == account }

  function FindCert(certs: seq<Cert>, account: nat, key: nat): (r: Option<nat>)
    ensures r.None? ==> forall k | 0 <= k < |certs| :: !(Serves(certs[k], account) && certs[k].key == key)
    ensures r.Some? ==> r.value < |certs| && Serves(certs[r.value], account) && certs[r.value].key == key
  {
    if certs == [] then None
    else
      var n := |certs| - 1;
      var before := FindCert(certs[..n], account, key);
      if before.Some? then before
      else if Serves(certs[n], account) && certs[n].key == key then Some(n)
      else None
  }

  function EnsureAccount(w: World<State>, name: string): Step<State, nat> {
    var listing := Call(w, w.state, ());
    if listing.result.Err? then Step(listing.world, Err(listing.result.error))
    else
      match FindAccount(w.state.accounts, name)
      case Some(id) => Step(listing.world, Ok(id))
      case None => Call(listing.world, w.state.(accounts := w.state.accounts + [name]), |w.state.accounts|)
  }

  /** The stored key, or a fresh one stored before anything is signed with it. */
  function EnsureKey(w: World<State>, name: string): Step<State, nat> {
    if name in w.state.keys then Step(w, Ok(w.state.keys[name]))
    else
      var generated := w.(next := w.next + 1);
      Call(generated, w.state.(keys := w.state.keys[name := w.next]), w.next)
  }

  function WriteFile(w: World<State>, name: string, cert: nat): Step<State, ()> {
    Call(w, w.state.(files := w.state.files[name := cert]), ())
  }

  function BoundTo(certs: seq<Cert>, id: nat, account: nat): seq<Cert>
    requires id < |certs|
  {
    certs[id := certs[id].(bound := Some(account))]
  }

  function SignAndBind(w: World<State>, name: string, t: Tenant, account: nat, key: nat): Step<State, ()> {
    var id := |w.state.certs|;
    var sign := Call(w, w.state.(certs := w.state.certs + [Cert(key, t.issuer, t.id, None, true)]), ());
    if sign.result.Err? then sign
    else
      var bind := Call(sign.world, sign.world.state.(certs := BoundTo(sign.world.state.certs, id, account)), ());
      if bind.result.Err? then bind else WriteFile(bind.world, name, id)
  }

  function EnsureCert(w: World<State>, name: string, t: Tenant, account: nat, key: nat): Step<State, ()> {
    var listing := Call(w, w.state, ());
    if listing.result.Err? then listing
    else
      match FindCert(w.state.certs, account, key)
      case Some(found) => WriteFile(listing.world, name, found)
      case None => SignAndBind(listing.world, name, t, account, key)
  }

  /** The account, the key, the certificate. */
  function Ensure(w: World<State>, name: string, t: Tenant): Step<State, ()> {
    var account := EnsureAccount(w, name);
    if account.result.Err? then Step(account.world, Err(account.result.error))
    else
      var key := EnsureKey(account.world, name);
      if key.result.Err? then Step(key.world, Err(key.result.error))
      else EnsureCert(key.world, name, t, account.result.value, key.result.value)
  }

  /** Every service of the tenant in turn. */
  function EnsureAll(w: World<State>, names: seq<string>, t: Tenant): Step<State, ()>
    decreases |names|
  {
    if names == [] then Step(w, Ok(()))
    else
      var first := Ensure(w, names[0], t);
      if first.result.Err? then first else EnsureAll(first.world, names[1..], t)
  }

  // ---------------------------------------------------------------- what is checked afterwards

  /** An active certificate bound to the account of this name. */
  predicate Mine(s: State, k: nat, name: string) {
    && k < |s.certs| && FindAccount(s.accounts, name).Some?
    && s.certs[k].active && s.certs[k].bound == FindAccount(s.accounts, name)
  }

  predicate TenantsOwn(c: Cert, t: Tenant) { c.issuer == t.issuer && c.tenant == t.id }

  /** The account exists and has one active certificate, of its tenant and its tenant's CA. */
  ghost predicate Verified(s: State, name: string, t: Tenant) {
    && FindAccount(s.accounts, name).Some?
    && exists k: nat :: Mine(s, k, name) && TenantsOwn(s.certs[k], t) && forall l: nat | Mine(s, l, name) :: l == k
  }

  predicate HasStoredKey(s: State, k: nat, name: string) {
    k < |s.certs| && name in s.keys && s.certs[k].key == s.keys[name]
  }

  /** The two halves of the stored identity agree: the file's certificate serves the account with the stored key. */
  ghost predicate Paired(s: State, name: string) {
    name in s.files && Mine(s, s.files[name], name) && HasStoredKey(s, s.files[name], name)
  }

  /** At most one certificate serves the account, and if one does it is the tenant's and has the stored key. */
  ghost predicate Single(s: State, name: string, t: Tenant) {
    forall k: nat, l: nat | Mine(s, k, name) && Mine(s, l, name) ::
      k == l && TenantsOwn(s.certs[k], t) && HasStoredKey(s, k, name)
  }

  // ---------------------------------------------------------------- what one run may change

  ghost predicate WellFormed(w: World<State>) {
    && (forall k | 0 <= k < |w.state.certs| ::
          && w.state.certs[k].key < w.next
          && (w.state.certs[k].bound.Some? ==> w.state.certs[k].bound.value < |w.state.accounts|))
    && (forall name | name in w.state.keys :: w.state.keys[name] < w.next)
  }

  ghost predicate AccountsGrown(s: State, s': State, name: string) {
    s'.accounts == s.accounts || (name !in s.accounts && s'.accounts == s.accounts + [name])
  }

  ghost predicate OthersKept<T>(m: map<string, T>, m': map<string, T>, name: string) {
    forall other | other != name :: (other in m' <==> other in m) && (other in m ==> m'[other] == m[other])
  }

  /** Old certificates and a stored key stay; one certificate at most is added, and only if none fits. */
  ghost predicate Changes(s: State, s': State, name: string, t: Tenant) {
    && AccountsGrown(s, s', name) && OthersKept(s.keys, s'.keys, name) && OthersKept(s.files, s'.files, name)
    && (name in s.keys ==> name in s'.keys && s'.keys[name] == s.keys[name])
    && (name !in s.keys && name in s'.keys ==> forall k: nat | k < |s.certs| :: !HasStoredKey(s', k, name))
    && s.certs <= s'.certs && |s'.certs| <= |s.certs| + 1
    && (|s'.certs| > |s.certs| ==>
          && TenantsOwn(s'.certs[|s.certs|], t) && HasStoredKey(s', |s.certs|, name)
          && (s'.certs[|s.certs|].bound.Some? ==> Mine(s', |s.certs|, name))
          && forall k: nat | k < |s.certs| && Mine(s', k, name) :: !HasStoredKey(s', k, name))
  }

  lemma AccountChanges(w: World<State>, name: string, t: Tenant)
    requires WellFormed(w)
    ensures var out := EnsureAccount(w, name);
            && WellFormed(out.world) && out.world.next == w.next
            && out.world.state == w.state.(accounts := out.world.state.accounts)
            && AccountsGrown(w.state, out.world.state, name)
            && (out.result.Ok? ==> FindAccount(out.world.state.accounts, name) == Some(out.result.value))
  {
  }

  lemma KeyChanges(w: World<State>, name: string)
    requires WellFormed(w)
    ensures var out := EnsureKey(w, name);
            && WellFormed(out.world) && out.world.state == w.state.(keys := out.world.state.keys)
            && OthersKept(w.state.keys, out.world.state.keys, name)
            && (name in w.state.keys ==> out.world.state.keys == w.state.keys)
            && (name !in w.state.keys && name in out.world.state.keys ==> out.world.state.keys[name] == w.next)
            && (out.result.Ok? ==> name in out.world.state.keys && out.world.state.keys[name] == out.result.value)
  {
  }

  ghost predicate CertOutcome(s: State, out: Step<State, ()>, name: string, t: Tenant) {
    && WellFormed(out.world) && Changes(s, out.world.state, name, t)
    && out.world.state.accounts == s.accounts && out.world.state.keys == s.keys
    && (out.result.Ok? ==> Paired(out.world.state, name))
    && (out.result.Ok? ==> forall k | |s.certs| <= k < |out.world.state.certs| :: out.world.state.certs[k].bound.Some?)
  }

  ghost predicate Prepared(w: World<State>, name: string, account: nat, key: nat) {
    && WellFormed(w) && FindAccount(w.state.accounts, name) == Some(account)
    && name in w.state.keys && w.state.keys[name] == key
  }

  lemma ReuseChanges(w: World<State>, name: string, t: Tenant, account: nat, key: nat, found: nat)
    requires Prepared(w, name, account, key) && Mine(w.state, found, name) && w.state.certs[found].key == key
    ensures CertOutcome(w.state, WriteFile(w, name, found), name, t)
  {
  }

  /** A certificate with the stored key, unbound or bound to the account, where none fitted. */
  lemma AddingChanges(s: State, s': State, name: string, t: Tenant, c: Cert)
    requires s' == s.(certs := s.certs + [c], files := s'.files) && OthersKept(s.files, s'.files, name)
    requires name in s.keys && c.key == s.keys[name] && TenantsOwn(c, t)
    requires c.bound.Some? ==> c.active && FindAccount(s.accounts, name) == Some(c.bound.value)
    requires forall k: nat | Mine(s, k, name) :: !HasStoredKey(s, k, name)
    ensures Changes(s, s', name, t)
  {
    assert forall k: nat | k < |s.certs| :: s'.certs[k] == s.certs[k];
    forall k: nat | k < |s.certs| && Mine(s', k, name) ensures !HasStoredKey(s', k, name) {
      assert Mine(s, k, name);
    }
  }

  /** Signing ends with no new certificate, an unbound one, or one bound to the account and perhaps filed. */
  lemma SignLeaves(w: World<State>, name: string, t: Tenant, account: nat, key: nat)
    ensures var s, out := w.state, SignAndBind(w, name, t, account, key);
            var s' := out.world.state;
            var unbound, bound := Cert(key, t.issuer, t.id, None, true), Cert(key, t.issuer, t.id, Some(account), true);
            && out.world.next == w.next && s' == s.(certs := s'.certs, files := s'.files)
            && (s'.certs == s.certs || s'.certs == s.certs + [unbound] || s'.certs == s.certs + [bound])
            && (s'.files == s.files || (s'.certs == s.certs + [bound] && s'.files == s.files[name := |s.certs|]))
            && (out.result.Ok? ==> s'.certs == s.certs + [bound] && s'.files == s.files[name := |s.certs|])
  {
    var id, unbound := |w.state.certs|, Cert(key, t.issuer, t.id, None, true);
    assert BoundTo(w.state.certs + [unbound], id, account) == w.state.certs + [unbound.(bound := Some(account))];
  }

  lemma SignChanges(w: World<State>, name: string, t: Tenant, account: nat, key: nat)
    requires Prepared(w, name, account, key)
    requires forall k: nat | Mine(w.state, k, name) :: !HasStoredKey(w.state, k, name)
    ensures CertOutcome(w.state, SignAndBind(w, name, t, account, key), name, t)
  {
    var unbound, bound := Cert(key, t.issuer, t.id, None, true), Cert(key, t.issuer, t.id, Some(account), true);
    var out := SignAndBind(w, name, t, account, key);
    SignLeaves(w, name, t, account, key);
    if out.world.state.certs == w.state.certs + [unbound] {
      AddingChanges(w.state, out.world.state, name, t, unbound);
    } else if out.world.state.certs == w.state.certs + [bound] {
      AddingChanges(w.state, out.world.state, name, t, bound);
    }
  }

  lemma CertChanges(w: World<State>, name: string, t: Tenant, account: nat, key: nat)
    requires Prepared(w, name, account, key)
    ensures CertOutcome(w.state, EnsureCert(w, name, t, account, key), name, t)
  {
    var listing := Call(w, w.state, ());
    if listing.result.Ok? {
      match FindCert(w.state.certs, account, key)
      case Some(found) => ReuseChanges(listing.world, name, t, account, key, found);
      case None => SignChanges(listing.world, name, t, account, key);
    }
  }

  ghost predicate Outcome(s: State, out: Step<State, ()>, name: string, t: Tenant) {
    && WellFormed(out.world) && Changes(s, out.world.state, name, t)
    && (out.result.Ok? ==> Paired(out.world.state, name))
    && (out.result.Ok? ==> forall k | |s.certs| <= k < |out.world.state.certs| :: out.world.state.certs[k].bound.Some?)
  }

  lemma EnsureChanges(w: World<State>, name: string, t: Tenant)
    requires WellFormed(w)
    ensures Outcome(w.state, Ensure(w, name, t), name, t)
  {
    AccountChanges(w, name, t);
    var account := EnsureAccount(w, name);
    if account.result.Ok? {
      KeyChanges(account.world, name);
      var key := EnsureKey(account.world, name);
      if key.result.Ok? {
        CertChanges(key.world, name, t, account.result.value, key.result.value);
      }
    }
  }

  // ---------------------------------------------------------------- an answered run completes

  lemma AccountAnswered(w: World<State>, name: string, rest: nat)
    ensures Clear(w.fates, 2 + rest) ==>
              EnsureAccount(w, name).result.Ok? && Clear(EnsureAccount(w, name).world.fates, rest)
  {
    AnsweredCall(w, w.state, (), 1 + rest);
  }

  lemma KeyAnswered(w: World<State>, name: string, rest: nat)
    ensures Clear(w.fates, 1 + rest) ==> EnsureKey(w, name).result.Ok? && Clear(EnsureKey(w, name).world.fates, rest)
  {
  }

  lemma SigningAnswered(w: World<State>, name: string, t: Tenant, account: nat, key: nat, rest: nat)
    ensures var out := SignAndBind(w, name, t, account, key);
            Clear(w.fates, 3 + rest) ==> out.result.Ok? && Clear(out.world.fates, rest)
  {
  }

  lemma CertAnswered(w: World<State>, name: string, t: Tenant, account: nat, key: nat, rest: nat)
    ensures var out := EnsureCert(w, name, t, account, key);
            Clear(w.fates, 4 + rest) ==> out.result.Ok? && Clear(out.world.fates, rest)
  {
    var listing := Call(w, w.state, ());
    SigningAnswered(listing.world, name, t, account, key, rest);
  }

  /** Seven answers are enough for one service, whatever the run finds. */
  lemma AnsweredEnsureCompletes(w: World<State>, name: string, t: Tenant, rest: nat)
    ensures Clear(w.fates, 7 + rest) ==> Ensure(w, name, t).result.Ok? && Clear(Ensure(w, name, t).world.fates, rest)
  {
    AccountAnswered(w, name, 5 + rest);
    var account := EnsureAccount(w, name);
    KeyAnswered(account.world, name, 4 + rest);
    if account.result.Ok? && EnsureKey(account.world, name).result.Ok? {
      var key := EnsureKey(account.world, name);
      CertAnswered(key.world, name, t, account.result.value, key.result.value, rest);
    }
  }

  // ---------------------------------------------------------------- one service

  ghost predicate BoundWithin(s: State) {
    forall k | 0 <= k < |s.certs| && s.certs[k].bound.Some? :: s.certs[k].bound.value < |s.accounts|
  }

  /** Of the old certificates, the same ones serve the account after the run. */
  lemma OldOnesServeOn(s: State, s': State, name: string, t: Tenant, k: nat)
    requires BoundWithin(s) && Changes(s, s', name, t) && k < |s.certs|
    ensures Mine(s', k, name) <==> Mine(s, k, name)
  {
  }

  lemma SingleIsKept(s: State, s': State, name: string, t: Tenant)
    requires BoundWithin(s) && Changes(s, s', name, t) && Single(s, name, t)
    ensures Single(s', name, t)
  {
    forall k: nat | Mine(s', k, name)
      ensures TenantsOwn(s'.certs[k], t) && HasStoredKey(s', k, name)
      ensures k < |s.certs| ==> Mine(s, k, name)
    {
      if k < |s.certs| {
        OldOnesServeOn(s, s', name, t, k);
        assert Mine(s, k, name) && TenantsOwn(s.certs[k], t) && HasStoredKey(s, k, name);
      }
    }
  }

  lemma SingleAndPairedAreVerified(s: State, name: string, t: Tenant)
    requires Single(s, name, t) && Paired(s, name)
    ensures Verified(s, name, t)
  {
  }

  lemma VerifiedWasSingle(s: State, s': State, name: string, t: Tenant)
    requires BoundWithin(s) && Changes(s, s', name, t) && Verified(s', name, t) && Paired(s', name)
    ensures Single(s, name, t)
  {
    forall k: nat, l: nat | Mine(s, k, name) && Mine(s, l, name)
      ensures k == l && TenantsOwn(s.certs[k], t) && HasStoredKey(s, k, name)
    {
      OldOnesServeOn(s, s', name, t, k);
      OldOnesServeOn(s, s', name, t, l);
      assert k == l == s'.files[name];
      assert HasStoredKey(s', k, name) && s'.certs[k] == s.certs[k];
    }
  }

  /**
   A run that completes has its two halves agree. What `verify` checks then holds if and only if the run
   started with no certificate serving the account, or one: the tenant's own, with the key on disk.
   */
  lemma CompletedRunVerifiesExactly(w: World<State>, name: string, t: Tenant)
    requires WellFormed(w) && Ensure(w, name, t).result.Ok?
    ensures Paired(Ensure(w, name, t).world.state, name)
    ensures Verified(Ensure(w, name, t).world.state, name, t) <==> Single(w.state, name, t)
  {
    EnsureChanges(w, name, t);
    var s' := Ensure(w, name, t).world.state;
    if Single(w.state, name, t) {
      SingleIsKept(w.state, s', name, t);
      SingleAndPairedAreVerified(s', name, t);
    }
    if Verified(s', name, t) {
      VerifiedWasSingle(w.state, s', name, t);
    }
  }

  /**
   A key lost after its certificate was bound is a case that fails: the run completes with a second
   identity minted.
   */
  lemma LosingTheKeyMintsASecond(w: World<State>, name: string, t: Tenant, k: nat)
    requires WellFormed(w) && Mine(w.state, k, name) && name !in w.state.keys
    ensures Ensure(w, name, t).result.Ok? ==> !Verified(Ensure(w, name, t).world.state, name, t)
    ensures Clear(w.fates, 7) ==> Ensure(w, name, t).result.Ok?
  {
    AnsweredEnsureCompletes(w, name, t, 0);
    if Ensure(w, name, t).result.Ok? {
      CompletedRunVerifiesExactly(w, name, t);
      assert !HasStoredKey(w.state, k, name);
    }
  }

  /** An account with its own certificate, whose key is gone. */
  function KeyLost(): State { State(["twin"], [Cert(0, 0, 0, Some(0), true)], map[], map[]) }

  lemma ALostKeyIsNotVerified()
    ensures Single(KeyLost().(keys := map["twin" := 0]), "twin", Tenant(0, 0))
    ensures exists fates :: var out := Ensure(World(KeyLost(), fates, 1), "twin", Tenant(0, 0));
                            out.result.Ok? && !Verified(out.world.state, "twin", Tenant(0, 0))
  {
    var w := World(KeyLost(), seq(7, _ => Answered), 1);
    assert FindAccount(KeyLost().accounts, "twin") == Some(0);
    assert Mine(KeyLost(), 0, "twin");
    LosingTheKeyMintsASecond(w, "twin", Tenant(0, 0), 0);
  }
}
