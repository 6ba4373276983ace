/** The services of all the tenants (`run` in `stages/service_certs.rs`), and the stage run again and again. */
module ServiceRounds {
  import opened Common
  import opened Remote
  import opened Rounds
  import opened ServiceCerts
  import opened ServiceRuns

  /** A tenant, its signing CA, and the account names of its services. */
  datatype Job = Job(tenant: Tenant, names: seq<string>)

  /** The signing CA is looked up, the tenant's client signs in, and every service is ensured. */
  function EnsureTenant(w: World<State>, job: Job): Step<State, ()> {
    var ca := Call(w, w.state, ());
    if ca.result.Err? then ca
    else
      var login := Call(ca.world, ca.world.state, ());
      if login.result.Err? then login else EnsureAll(login.world, job.names, job.tenant)
  }

  function IssueAll(jobs: seq<Job>): Work<State> {
    (w: World<State>, i: nat) => if i < |jobs| then EnsureTenant(w, jobs[i]) else Step(w, Err(Missing))
  }

  // ---------------------------------------------------------------- one tenant

  lemma NotBothAnswered(w: World<State>)
    requires !Clear(w.fates, 2)
    ensures var ca := Call(w, w.state, ());
            && ca.world.state == w.state
            && (ca.result.Ok? ==>
                  var login := Call(ca.world, w.state, ());
                  login.world.state == w.state && login.result.Err?)
  {
    if w.fates != [] && w.fates[0] == Answered && |w.fates| > 1 {
      assert w.fates[1..][0] == w.fates[1];
    }
  }

  /** Unless the CA is found and the tenant's client signed in, both calls answered, the tenant is left as it is. */
  lemma NothingBeforeSignIn(w: World<State>, job: Job)
    requires !Clear(w.fates, 2)
    ensures EnsureTenant(w, job).world.state == w.state && EnsureTenant(w, job).result.Err?
  {
    NotBothAnswered(w);
  }

  /** No service has a second certificate, nor one that is not the tenant's with the stored key. */
  ghost predicate Orderly(w: World<State>, job: Job) {
    WellFormed(w) && Apart(job.names) && AllSingle(w.state, job.names, job.tenant)
  }

  ghost predicate AllGood(s: State, job: Job) {
    forall k | 0 <= k < |job.names| :: Good(s, job.names[k], job.tenant)
  }

  lemma OneServiceDrawsOn(w: World<State>, name: string, t: Tenant)
    ensures Ensure(w, name, t).world.next >= w.next
  {
  }

  lemma {:induction false} ServicesDrawOn(w: World<State>, names: seq<string>, t: Tenant)
    ensures EnsureAll(w, names, t).world.next >= w.next
    decreases |names|
  {
    if names != [] {
      OneServiceDrawsOn(w, names[0], t);
      var first := Ensure(w, names[0], t);
      if first.result.Ok? {
        ServicesDrawOn(first.world, names[1..], t);
      }
    }
  }

  lemma ServicesStayOrderly(w: World<State>, job: Job)
    requires Orderly(w, job)
    ensures var out := EnsureAll(w, job.names, job.tenant);
            && Orderly(out.world, job) && out.world.next >= w.next
            && (out.result.Ok? ==> AllGood(out.world.state, job))
            && |Orphans(out.world.state)| <= |Orphans(w.state)| + (if out.result.Ok? then 0 else 1)
  {
    ServicesDrawOn(w, job.names, job.tenant);
    RunLeavesFewOrphans(w, job.names, job.tenant);
    var out := EnsureAll(w, job.names, job.tenant);
    forall k | 0 <= k < |job.names|
      ensures Single(out.world.state, job.names[k], job.tenant)
      ensures out.result.Ok? ==> Good(out.world.state, job.names[k], job.tenant)
    {
      RunKeepsSingle(w, job.names, job.tenant, job.names[k]);
      if out.result.Ok? {
        CompletedRunIsGood(w, job.names, job.tenant, k);
      }
    }
  }

  lemma TenantStaysOrderly(w: World<State>, job: Job)
    requires Orderly(w, job)
    ensures var out := EnsureTenant(w, job);
            && Orderly(out.world, job) && out.world.next >= w.next
            && (out.result.Ok? ==> AllGood(out.world.state, job))
            && |Orphans(out.world.state)| <= |Orphans(w.state)| + (if out.result.Ok? then 0 else 1)
  {
    var ca := Call(w, w.state, ());
    if ca.result.Ok? && Call(ca.world, ca.world.state, ()).result.Ok? {
      ServicesStayOrderly(Call(ca.world, ca.world.state, ()).world, job);
    }
  }

  lemma AnsweredTenantCompletes(w: World<State>, job: Job, rest: nat)
    requires Clear(w.fates, 2 + 7 * |job.names| + rest)
    ensures EnsureTenant(w, job).result.Ok? && Clear(EnsureTenant(w, job).world.fates, rest)
  {
    var ca := Call(w, w.state, ());
    var login := Call(ca.world, ca.world.state, ());
    AnsweredRunCompletes(login.world, job.names, job.tenant, 7 * |job.names|, rest);
  }

  // ---------------------------------------------------------------- all of them

  ghost function OrderlyAt(jobs: seq<Job>): Holds<State> {
    (w: World<State>, i: nat) => i < |jobs| && Orderly(w, jobs[i])
  }

  ghost function GoodAt(jobs: seq<Job>): Finished<State> {
    (s: State, i: nat) => i < |jobs| && AllGood(s, jobs[i])
  }

  ghost function OrphanCount(): Size<State> { (s: State) => |Orphans(s)| }

  ghost function CallsOf(jobs: seq<Job>): Cost {
    (i: nat) => if i < |jobs| then 2 + 7 * |jobs[i].names| else 0
  }

  lemma OrderlyLasts(w: World<State>, v: World<State>, job: Job)
    requires Orderly(w, job) && v.state == w.state && v.next >= w.next
    ensures Orderly(v, job)
  {
  }

  lemma IssuingKeeps(jobs: seq<Job>, work: Work<State>, holds: Holds<State>, finished: Finished<State>)
    requires work == IssueAll(jobs) && holds == OrderlyAt(jobs) && finished == GoodAt(jobs)
    ensures Keeps(work, holds, finished)
  {
    forall w: World<State>, v: World<State>, i: nat | holds(w, i) && v.state == w.state && v.next >= w.next
      ensures holds(v, i)
    {
      OrderlyLasts(w, v, jobs[i]);
    }
    forall w: World<State>, i: nat ensures KeptAt(work, holds, finished, w, i) {
      if holds(w, i) {
        TenantStaysOrderly(w, jobs[i]);
      }
    }
  }

  lemma IssuingLeavesLittle(jobs: seq<Job>, work: Work<State>, holds: Holds<State>, size: Size<State>)
    requires work == IssueAll(jobs) && holds == OrderlyAt(jobs) && size == OrphanCount()
    ensures LeavesLittle(work, holds, size)
  {
    forall w: World<State>, i: nat ensures LeavesAt(work, holds, size, w, i) {
      if holds(w, i) {
        TenantStaysOrderly(w, jobs[i]);
      }
    }
  }

  lemma IssuingCompletes(jobs: seq<Job>, work: Work<State>, holds: Holds<State>, cost: Cost)
    requires work == IssueAll(jobs) && holds == OrderlyAt(jobs) && cost == CallsOf(jobs)
    ensures Completes(work, holds, cost)
  {
    forall w: World<State>, i: nat, rest: nat ensures CompletesAt(work, holds, cost, w, i, rest) {
      if holds(w, i) && Clear(w.fates, cost(i) + rest) {
        AnsweredTenantCompletes(w, jobs[i], rest);
      }
    }
  }

  /**
   From tenants where no service has a certificate yet: at every cut each service has one at most, with
   the stored key, and the runs so far left one orphan each at most, in all the tenants together. The
   next run completes if it is answered, and a completed one leaves every service of every tenant
   verified, its two halves agreeing.
   */
  lemma InterruptedRunsConverge(jobs: seq<Job>, w: World<seq<State>>, runs: seq<seq<Fate>>, last: seq<Fate>)
    requires |jobs| == |w.state|
    requires forall i | 0 <= i < |jobs| :: Apart(jobs[i].names) && WellFormed(Acting(w, i))
    requires forall i, k, n | 0 <= i < |jobs| && n in jobs[i].names :: !Mine(w.state[i], k, n)
    ensures var before := AfterRounds(IssueAll(jobs), w, runs);
            && (forall i | 0 <= i < |jobs| :: AllSingle(before.state[i], jobs[i].names, jobs[i].tenant))
            && Total(OrphanCount(), before.state) <= Total(OrphanCount(), w.state) + |runs|
    ensures var done := Round(IssueAll(jobs), AfterRounds(IssueAll(jobs), w, runs).(fates := last));
            && (Clear(last, CallsFrom(CallsOf(jobs), |jobs|, 0)) ==> done.result.Ok?)
            && (done.result.Ok? ==> forall i | 0 <= i < |jobs| :: AllGood(done.world.state[i], jobs[i]))
  {
    var work, holds, finished := IssueAll(jobs), OrderlyAt(jobs), GoodAt(jobs);
    forall i | 0 <= i < |jobs| ensures holds(Acting(w, i), i) {
      assert AllSingle(w.state[i], jobs[i].names, jobs[i].tenant);
    }
    IssuingKeeps(jobs, work, holds, finished);
    IssuingLeavesLittle(jobs, work, holds, OrphanCount());
    IssuingCompletes(jobs, work, holds, CallsOf(jobs));
    InterruptedRoundsComplete(work, holds, finished, CallsOf(jobs), w, runs, last);
    RoundsLeaveLittle(work, holds, finished, OrphanCount(), w, runs);
    var before := AfterRounds(work, w, runs);
    var done := Round(work, before.(fates := last));
    forall i | 0 <= i < |jobs|
      ensures AllSingle(before.state[i], jobs[i].names, jobs[i].tenant)
      ensures done.result.Ok? ==> AllGood(done.world.state[i], jobs[i])
    {
      assert holds(Acting(before, i), i);
      assert done.result.Ok? ==> finished(done.world.state[i], i);
    }
  }
}
