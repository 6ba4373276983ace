/** Whole runs over a tenant's services, interrupted anywhere, and the check made afterwards. */
module ServiceRuns {
  import opened Common
  import opened Remote
  import opened ServiceCerts

  // ---------------------------------------------------------------- services do not touch each other

  lemma OthersServeOn(s: State, s': State, name: string, t: Tenant, other: string, k: nat)
    requires Changes(s, s', name, t) && name != other
    ensures Mine(s', k, other) <==> Mine(s, k, other)
  {
  }

  /** Ensuring one service leaves another's certificates, key and file as they were. */
  lemma OthersAreKept(s: State, s': State, name: string, t: Tenant, other: string)
    requires Changes(s, s', name, t) && name != other
    ensures Single(s', other, t) <==> Single(s, other, t)
    ensures Paired(s', other) <==> Paired(s, other)
  {
    forall k: nat
      ensures Mine(s', k, other) <==> Mine(s, k, other)
      ensures k < |s.certs| ==> s'.certs[k] == s.certs[k] && (HasStoredKey(s', k, other) <==> HasStoredKey(s, k, other))
    {
      OthersServeOn(s, s', name, t, other, k);
    }
    if Single(s', other, t) {
      forall k: nat, l: nat | Mine(s, k, other) && Mine(s, l, other)
        ensures k == l && TenantsOwn(s.certs[k], t) && HasStoredKey(s, k, other)
      {
        assert Mine(s', k, other) && Mine(s', l, other);
      }
    }
    if Single(s, other, t) {
      forall k: nat, l: nat | Mine(s', k, other) && Mine(s', l, other)
        ensures k == l && TenantsOwn(s'.certs[k], t) && HasStoredKey(s', k, other)
      {
        assert Mine(s, k, other) && Mine(s, l, other);
      }
    }
  }

  // ---------------------------------------------------------------- orphans

  /** Certificates signed but bound to no account. */
  ghost function Orphans(s: State): set<nat> {
    set k: nat | k < |s.certs| && s.certs[k].bound.None?
  }

  lemma SetSizes(a: set<nat>, b: set<nat>, extra: nat)
    requires a <= b + {extra}
    ensures |a| <= |b| + 1
  {
    if extra in a {
      assert a - {extra} <= b;
      SubsetIsSmaller(a - {extra}, b);
    } else {
      SubsetIsSmaller(a, b);
    }
  }

  lemma OrphansGrow(s: State, s': State, name: string, t: Tenant)
    requires Changes(s, s', name, t)
    ensures |Orphans(s')| <= |Orphans(s)| + 1
    ensures (forall k | |s.certs| <= k < |s'.certs| :: s'.certs[k].bound.Some?) ==> Orphans(s') == Orphans(s)
  {
    assert forall k: nat | k < |s.certs| :: s'.certs[k] == s.certs[k];
    assert Orphans(s') <= Orphans(s) + {|s.certs|};
    SetSizes(Orphans(s'), Orphans(s), |s.certs|);
  }

  /** Only a run that fails can leave an orphan, and then one. */
  lemma OneOrphanAtMost(w: World<State>, name: string, t: Tenant)
    requires WellFormed(w)
    ensures var out := Ensure(w, name, t);
            |Orphans(out.world.state)| <= |Orphans(w.state)| + (if out.result.Ok? then 0 else 1)
  {
    EnsureChanges(w, name, t);
    OrphansGrow(w.state, Ensure(w, name, t).world.state, name, t);
  }

  // ---------------------------------------------------------------- whole runs

  ghost predicate AllSingle(s: State, names: seq<string>, t: Tenant) {
    forall i | 0 <= i < |names| :: Single(s, names[i], t)
  }

  lemma {:induction false} RunKeepsSingle(w: World<State>, names: seq<string>, t: Tenant, watched: string)
    requires WellFormed(w) && Single(w.state, watched, t)
    ensures WellFormed(EnsureAll(w, names, t).world) && Single(EnsureAll(w, names, t).world.state, watched, t)
    decreases |names|
  {
    if names != [] {
      EnsureChanges(w, names[0], t);
      var first := Ensure(w, names[0], t);
      if names[0] == watched {
        SingleIsKept(w.state, first.world.state, watched, t);
      } else {
        OthersAreKept(w.state, first.world.state, names[0], t, watched);
      }
      if first.result.Ok? {
        RunKeepsSingle(first.world, names[1..], t, watched);
      }
    }
  }

  lemma {:induction false} RunKeepsPaired(w: World<State>, names: seq<string>, t: Tenant, watched: string)
    requires WellFormed(w) && Paired(w.state, watched) && watched !in names
    ensures Paired(EnsureAll(w, names, t).world.state, watched)
    decreases |names|
  {
    if names != [] {
      EnsureChanges(w, names[0], t);
      var first := Ensure(w, names[0], t);
      OthersAreKept(w.state, first.world.state, names[0], t, watched);
      if first.result.Ok? {
        RunKeepsPaired(first.world, names[1..], t, watched);
      }
    }
  }

  lemma {:induction false} RunLeavesFewOrphans(w: World<State>, names: seq<string>, t: Tenant)
    requires WellFormed(w)
    ensures var out := EnsureAll(w, names, t);
            && WellFormed(out.world)
            && |Orphans(out.world.state)| <= |Orphans(w.state)| + (if out.result.Ok? then 0 else 1)
    decreases |names|
  {
    if names != [] {
      EnsureChanges(w, names[0], t);
      OneOrphanAtMost(w, names[0], t);
      var first := Ensure(w, names[0], t);
      if first.result.Ok? {
        RunLeavesFewOrphans(first.world, names[1..], t);
      }
    }
  }

  ghost predicate Good(s: State, name: string, t: Tenant) { Verified(s, name, t) && Paired(s, name) }

  ghost predicate Apart(names: seq<string>) {
    forall j, k | 0 <= j < k < |names| :: names[j] != names[k]
  }

  lemma RestStaysSingle(s: State, s': State, names: seq<string>, t: Tenant)
    requires names != [] && Apart(names) && AllSingle(s, names, t) && Changes(s, s', names[0], t)
    ensures Apart(names[1..]) && AllSingle(s', names[1..], t) && names[0] !in names[1..]
  {
    forall j | 0 <= j < |names| - 1 ensures Single(s', names[1..][j], t) && names[1..][j] != names[0] {
      assert names[1..][j] == names[j + 1];
      OthersAreKept(s, s', names[0], t, names[j + 1]);
    }
  }

  lemma {:induction false} CompletedRunIsGood(w: World<State>, names: seq<string>, t: Tenant, i: nat)
    requires WellFormed(w) && Apart(names) && AllSingle(w.state, names, t) && EnsureAll(w, names, t).result.Ok?
    requires i < |names|
    ensures Good(EnsureAll(w, names, t).world.state, names[i], t)
    decreases |names|
  {
    var name, rest := names[0], names[1..];
    var first := Ensure(w, name, t);
    EnsureChanges(w, name, t);
    RestStaysSingle(w.state, first.world.state, names, t);
    if i == 0 {
      SingleIsKept(w.state, first.world.state, name, t);
      RunKeepsSingle(first.world, rest, t, name);
      RunKeepsPaired(first.world, rest, t, name);
      SingleAndPairedAreVerified(EnsureAll(w, names, t).world.state, name, t);
    } else {
      CompletedRunIsGood(first.world, rest, t, i - 1);
    }
  }

  /** Seven answers a service are enough for the whole run. */
  lemma {:induction false} AnsweredRunCompletes(w: World<State>, names: seq<string>, t: Tenant, calls: nat, rest: nat)
    requires calls == 7 * |names| && Clear(w.fates, calls + rest)
    ensures EnsureAll(w, names, t).result.Ok? && Clear(EnsureAll(w, names, t).world.fates, rest)
    decreases |names|
  {
    if names != [] {
      AnsweredEnsureCompletes(w, names[0], t, calls - 7 + rest);
      AnsweredRunCompletes(Ensure(w, names[0], t).world, names[1..], t, calls - 7, rest);
    }
  }

  // ---------------------------------------------------------------- verify

  /** A tenant as the check sees it: its listings and the account names it asks for. */
  datatype View = View(tenant: Tenant, state: State, names: seq<string>)

  method Serving(s: State, account: nat) returns (bound: seq<nat>)
    ensures forall k: nat :: k in bound <==> k < |s.certs| && Serves(s.certs[k], account)
    ensures forall i, j | 0 <= i < j < |bound| :: bound[i] < bound[j]
  {
    bound := [];
    for k := 0 to |s.certs|
      invariant forall l: nat :: l in bound <==> l < k && Serves(s.certs[l], account)
      invariant forall i, j | 0 <= i < j < |bound| :: bound[i] < bound[j]
    {
      if Serves(s.certs[k], account) {
        assert forall i | 0 <= i < |bound| :: bound[i] in bound;
        bound := bound + [k];
      }
    }
  }

  method VerifyTenant(v: View, before: bool) returns (passed: bool)
    ensures passed <==> before && forall i | 0 <= i < |v.names| :: Verified(v.state, v.names[i], v.tenant)
  {
    passed := before;
    for i := 0 to |v.names|
      invariant passed <==> before && forall j | 0 <= j < i :: Verified(v.state, v.names[j], v.tenant)
    {
      var name := v.names[i];
      var account := FindAccount(v.state.accounts, name);
      if account.None? {
        passed := false;
        continue;
      }
      var bound := Serving(v.state, account.value);
      assert forall k: nat :: Mine(v.state, k, name) <==> k in bound;
      if |bound| != 1 {
        if |bound| > 1 {
          assert bound[0] in bound && bound[1] in bound;
        }
        passed := false;
        continue;
      }
      assert bound[0] in bound;
      var cert := v.state.certs[bound[0]];
      if cert.issuer != v.tenant.issuer {
        passed := false;
        continue;
      }
      if cert.tenant != v.tenant.id {
        passed := false;
        continue;
      }
    }
  }

  /** Passes exactly when every service of every tenant is verified. */
  method Verify(views: seq<View>) returns (passed: bool)
    ensures passed <==> forall v, i | 0 <= v < |views| && 0 <= i < |views[v].names| ::
                          Verified(views[v].state, views[v].names[i], views[v].tenant)
  {
    passed := true;
    for v := 0 to |views|
      invariant passed <==> forall u, i | 0 <= u < v && 0 <= i < |views[u].names| ::
                              Verified(views[u].state, views[u].names[i], views[u].tenant)
    {
      passed := VerifyTenant(views[v], passed);
    }
  }
}
