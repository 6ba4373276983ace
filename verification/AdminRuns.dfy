/** The administrators of all the tenants in turn, and the stage run again and again (`stages/tenant_admin.rs`). */
module AdminRuns {
  import opened Common
  import opened Remote
  import opened Rounds
  import opened TenantAdmin

  /** The stage: in each tenant its administrator, whose name is listed under the tenant's place. */
  function Administer(names: seq<string>): Work<State> {
    (w: World<State>, i: nat) =>
      if i >= |names| then Step(w, Err(Missing))
      else
        var out := Provision(w, names[i]);
        Step(out.world, if out.result.Ok? then Ok(()) else Err(out.result.error))
  }

  /** In one tenant: the account's password is stored, the name is its alone, later passwords are new. */
  ghost predicate Sound(w: World<State>, name: string) {
    WriteAhead(w.state, name) && OneOfName(w.state, name) && Unused(w)
  }

  /** Sound, its role seeded as it was at first, and everyone else's standing as it was. */
  ghost function SoundAt(names: seq<string>, first: seq<State>): Holds<State>
    requires |first| == |names|
  {
    (w: World<State>, i: nat) =>
      && i < |names| && Sound(w, names[i]) && w.state.seeded == first[i].seeded
      && OthersStand(first[i], w.state, names[i])
  }

  /** Some account of that name is active, administers the tenant, and has the stored password. */
  ghost predicate Administered(s: State, name: string) { exists k: nat :: SignsIn(s, k, name) }

  ghost function AdministeredAt(names: seq<string>): Finished<State> {
    (s: State, i: nat) => i < |names| && Administered(s, names[i]) && s.seeded
  }

  lemma ProvisionKeepsSound(w: World<State>, name: string)
    requires Sound(w, name)
    ensures var out := Provision(w, name);
            && Sound(out.world, name) && out.world.next >= w.next && out.world.state.seeded == w.state.seeded
            && (out.result.Ok? ==> Administered(out.world.state, name) && out.world.state.seeded)
  {
    ProvisionChanges(w, name);
    ProvisionWritesAhead(w, name);
    ProvisionUsesFreshPasswords(w, name);
    if Provision(w, name).result.Ok? {
      CompletedRunSignsInExactly(w, name);
    }
  }

  lemma SoundLasts(w: World<State>, v: World<State>, name: string)
    requires Sound(w, name) && v.state == w.state && v.next >= w.next
    ensures Sound(v, name)
  {
  }

  lemma AdministerKeeps(names: seq<string>, first: seq<State>, work: Work<State>, holds: Holds<State>,
                        finished: Finished<State>)
    requires |first| == |names| && work == Administer(names) && holds == SoundAt(names, first)
    requires finished == AdministeredAt(names)
    ensures Keeps(work, holds, finished)
  {
    forall w: World<State>, v: World<State>, i: nat | holds(w, i) && v.state == w.state && v.next >= w.next
      ensures holds(v, i)
    {
      SoundLasts(w, v, names[i]);
    }
    forall w: World<State>, i: nat ensures KeptAt(work, holds, finished, w, i) {
      if holds(w, i) {
        ProvisionKeepsSound(w, names[i]);
        ProvisionLeavesOthers(w, names[i]);
        OthersStandOn(first[i], w.state, Provision(w, names[i]).world.state, names[i]);
      }
    }
  }

  /** Six answers a tenant are enough. */
  ghost function SixCalls(): Cost { (i: nat) => 6 }

  lemma {:induction false} SixEach(n: nat, i: nat)
    requires i <= n
    ensures CallsFrom(SixCalls(), n, i) == 6 * (n - i)
    decreases n - i
  {
    if i < n {
      SixEach(n, i + 1);
    }
  }

  lemma AdministerCompletes(names: seq<string>, first: seq<State>, work: Work<State>, holds: Holds<State>)
    requires |first| == |names| && work == Administer(names) && holds == SoundAt(names, first)
    requires forall i | 0 <= i < |names| :: first[i].seeded
    ensures Completes(work, holds, SixCalls())
  {
    forall w: World<State>, i: nat, rest: nat ensures CompletesAt(work, holds, SixCalls(), w, i, rest) {
      if holds(w, i) && Clear(w.fates, 6 + rest) {
        AnsweredProvisionCompletesExactly(w, names[i], rest);
      }
    }
  }

  lemma StartIsSound(names: seq<string>, w: World<seq<State>>)
    requires |names| == |w.state|
    requires forall i | 0 <= i < |names| :: Unused(Acting(w, i)) && forall k: nat :: !Is(w.state[i], k, names[i])
    ensures HoldAll(SoundAt(names, w.state), w)
  {
    forall i | 0 <= i < |names| ensures Sound(Acting(w, i), names[i]) {
    }
  }

  /**
   From tenants without the account: after any interrupted runs, one whose calls are answered completes
   if and only if every tenant's role was seeded, and one that completes leaves every tenant an
   administrator its stored credentials sign in as. However a run ends, everyone else in every tenant
   stands as at first.
   */
  lemma InterruptedRunsSignIn(names: seq<string>, w: World<seq<State>>, runs: seq<seq<Fate>>, last: seq<Fate>)
    requires |names| == |w.state|
    requires forall i | 0 <= i < |names| :: Unused(Acting(w, i)) && forall k: nat :: !Is(w.state[i], k, names[i])
    ensures var out := Round(Administer(names), AfterRounds(Administer(names), w, runs).(fates := last));
            && (Clear(last, 6 * |names|) ==> (out.result.Ok? <==> forall i | 0 <= i < |names| :: w.state[i].seeded))
            && (out.result.Ok? ==> forall i | 0 <= i < |names| :: Administered(out.world.state[i], names[i]))
            && forall i | 0 <= i < |names| :: OthersStand(w.state[i], out.world.state[i], names[i])
  {
    var work, holds, finished := Administer(names), SoundAt(names, w.state), AdministeredAt(names);
    StartIsSound(names, w);
    AdministerKeeps(names, w.state, work, holds, finished);
    InterruptedRoundsComplete(work, holds, finished, SixCalls(), w, runs, last);
    SixEach(|names|, 0);
    if forall i | 0 <= i < |names| :: w.state[i].seeded {
      AdministerCompletes(names, w.state, work, holds);
    }
    var out := Round(work, AfterRounds(work, w, runs).(fates := last));
    forall i | 0 <= i < |names| ensures OthersStand(w.state[i], out.world.state[i], names[i]) {
      assert holds(Acting(out.world, i), i);
    }
    if out.result.Ok? {
      forall i | 0 <= i < |names| ensures Administered(out.world.state[i], names[i]) && w.state[i].seeded {
        assert finished(out.world.state[i], i) && holds(Acting(out.world, i), i);
      }
    }
  }
}
