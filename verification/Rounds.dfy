/** The same work in each tenant of the organization in turn, and such rounds run again and again. */
module Rounds {
  import opened Common
  import opened Remote

  /** The organization's session as it acts in one tenant. */
  function Acting<S>(w: World<seq<S>>, i: nat): World<S>
    requires i < |w.state|
  {
    World(w.state[i], w.fates, w.next)
  }

  /** Back in the organization: what acting in tenant `i` left, every other tenant as it was. */
  function After<S, T>(w: World<seq<S>>, i: nat, out: Step<S, T>): Step<seq<S>, T>
    requires i < |w.state|
  {
    Step(World(w.state[i := out.world.state], out.world.fates, out.world.next), out.result)
  }

  /** What is done in tenant `i`. */
  type Work<!S> = (World<S>, nat) -> Step<S, ()>

  /** The tenants from `i` on; the first failure ends the round. */
  function EachFrom<S>(work: Work<S>, w: World<seq<S>>, i: nat): (out: Step<seq<S>, ()>)
    requires i <= |w.state|
    ensures |out.world.state| == |w.state|
    decreases |w.state| - i
  {
    if i == |w.state| then Step(w, Ok(()))
    else
      var one := After(w, i, work(Acting(w, i), i));
      if one.result.Err? then one else EachFrom(work, one.world, i + 1)
  }

  function Round<S>(work: Work<S>, w: World<seq<S>>): (out: Step<seq<S>, ()>)
    ensures |out.world.state| == |w.state|
  {
    EachFrom(work, w, 0)
  }

  /** The tenants after a number of rounds, each ending where its calls do. */
  function AfterRounds<S>(work: Work<S>, w: World<seq<S>>, runs: seq<seq<Fate>>): (last: World<seq<S>>)
    ensures |last.state| == |w.state|
    decreases |runs|
  {
    if runs == [] then w else AfterRounds(work, Round(work, w.(fates := runs[0])).world, runs[1..])
  }

  // ---------------------------------------------------------------- what every round keeps

  /** Something true of tenant `i` whenever the session comes to act in it, and of one that is done. */
  type Holds<!S> = (World<S>, nat) -> bool

  type Finished<!S> = (S, nat) -> bool

  /** Calls and fresh values used elsewhere do not disturb it. */
  ghost predicate Lasting<S(!new)>(holds: Holds<S>) {
    forall w: World<S>, v: World<S>, i: nat ::
      holds(w, i) && v.state == w.state && v.next >= w.next ==> holds(v, i)
  }

  ghost predicate KeptAt<S>(work: Work<S>, holds: Holds<S>, finished: Finished<S>, w: World<S>, i: nat) {
    var out := work(w, i);
    holds(w, i) ==>
      && holds(out.world, i) && out.world.next >= w.next
      && (out.result.Ok? ==> finished(out.world.state, i))
  }

  ghost predicate Keeps<S(!new)>(work: Work<S>, holds: Holds<S>, finished: Finished<S>) {
    Lasting(holds) && forall w: World<S>, i: nat :: KeptAt(work, holds, finished, w, i)
  }

  ghost predicate HoldAll<S>(holds: Holds<S>, w: World<seq<S>>) {
    forall i | 0 <= i < |w.state| :: holds(Acting(w, i), i)
  }

  ghost predicate FinishedFrom<S>(finished: Finished<S>, tenants: seq<S>, i: nat) {
    forall j | i <= j < |tenants| :: finished(tenants[j], j)
  }

  lemma OneKeeps<S(!new)>(work: Work<S>, holds: Holds<S>, finished: Finished<S>, w: World<seq<S>>, i: nat)
    requires Keeps(work, holds, finished) && HoldAll(holds, w) && i < |w.state|
    ensures var one := After(w, i, work(Acting(w, i), i));
            && HoldAll(holds, one.world) && one.world.next >= w.next
            && (one.result.Ok? ==> finished(one.world.state[i], i))
  {
    assert KeptAt(work, holds, finished, Acting(w, i), i);
    var one := After(w, i, work(Acting(w, i), i));
    forall j | 0 <= j < |w.state| ensures holds(Acting(one.world, j), j) {
      var before := if j == i then work(Acting(w, i), i).world else Acting(w, j);
      assert holds(before, j);
    }
  }

  /** What holds everywhere goes on to hold everywhere, however the round ends; if it completes, all are finished. */
  lemma {:induction false} EachKeeps<S(!new)>(work: Work<S>, holds: Holds<S>, finished: Finished<S>,
                                              w: World<seq<S>>, i: nat)
    requires Keeps(work, holds, finished) && HoldAll(holds, w) && i <= |w.state|
    ensures var out := EachFrom(work, w, i);
            && HoldAll(holds, out.world) && out.world.next >= w.next && out.world.state[..i] == w.state[..i]
            && (out.result.Ok? ==> FinishedFrom(finished, out.world.state, i))
    decreases |w.state| - i
  {
    if i < |w.state| {
      OneKeeps(work, holds, finished, w, i);
      var one := After(w, i, work(Acting(w, i), i));
      if one.result.Ok? {
        EachKeeps(work, holds, finished, one.world, i + 1);
        var out := EachFrom(work, one.world, i + 1);
        assert out.world.state[i] == out.world.state[..i + 1][i] == one.world.state[..i + 1][i];
        assert out.world.state[..i] == out.world.state[..i + 1][..i] == one.world.state[..i + 1][..i] == w.state[..i];
      } else {
        assert one.world.state[..i] == w.state[..i];
      }
    }
  }

  lemma NewCalls<S(!new)>(holds: Holds<S>, w: World<seq<S>>, fates: seq<Fate>)
    requires Lasting(holds) && HoldAll(holds, w)
    ensures HoldAll(holds, w.(fates := fates))
  {
    var v := w.(fates := fates);
    forall i | 0 <= i < |v.state| ensures holds(Acting(v, i), i) {
      assert holds(Acting(w, i), i);
    }
  }

  lemma {:induction false} RoundsKeep<S(!new)>(work: Work<S>, holds: Holds<S>, finished: Finished<S>,
                                               w: World<seq<S>>, runs: seq<seq<Fate>>)
    requires Keeps(work, holds, finished) && HoldAll(holds, w)
    ensures HoldAll(holds, AfterRounds(work, w, runs))
    decreases |runs|
  {
    if runs != [] {
      var start := w.(fates := runs[0]);
      NewCalls(holds, w, runs[0]);
      EachKeeps(work, holds, finished, start, 0);
      RoundsKeep(work, holds, finished, Round(work, start).world, runs[1..]);
    }
  }

  // ---------------------------------------------------------------- when a round completes

  /** How many answers a tenant needs at most. */
  type Cost = nat -> nat

  function CallsFrom(cost: Cost, n: nat, i: nat): nat
    requires i <= n
    decreases n - i
  {
    if i == n then 0 else cost(i) + CallsFrom(cost, n, i + 1)
  }

  ghost predicate CompletesAt<S>(work: Work<S>, holds: Holds<S>, cost: Cost, w: World<S>, i: nat, rest: nat) {
    var out := work(w, i);
    holds(w, i) && Clear(w.fates, cost(i) + rest) ==> out.result.Ok? && Clear(out.world.fates, rest)
  }

  ghost predicate Completes<S(!new)>(work: Work<S>, holds: Holds<S>, cost: Cost) {
    forall w: World<S>, i: nat, rest: nat :: CompletesAt(work, holds, cost, w, i, rest)
  }

  lemma {:induction false} EachCompletes<S(!new)>(work: Work<S>, holds: Holds<S>, finished: Finished<S>, cost: Cost,
                                                  w: World<seq<S>>, i: nat)
    requires Keeps(work, holds, finished) && Completes(work, holds, cost) && HoldAll(holds, w) && i <= |w.state|
    requires Clear(w.fates, CallsFrom(cost, |w.state|, i))
    ensures EachFrom(work, w, i).result.Ok?
    decreases |w.state| - i
  {
    if i < |w.state| {
      OneKeeps(work, holds, finished, w, i);
      assert CompletesAt(work, holds, cost, Acting(w, i), i, CallsFrom(cost, |w.state|, i + 1));
      EachCompletes(work, holds, finished, cost, After(w, i, work(Acting(w, i), i)).world, i + 1);
    }
  }

  /**
   After any number of interrupted rounds: what held everywhere still does; a round whose calls are
   answered completes; and one that completes leaves every tenant finished.
   */
  lemma InterruptedRoundsComplete<S(!new)>(work: Work<S>, holds: Holds<S>, finished: Finished<S>, cost: Cost,
                                           w: World<seq<S>>, runs: seq<seq<Fate>>, last: seq<Fate>)
    requires Keeps(work, holds, finished) && HoldAll(holds, w)
    ensures HoldAll(holds, AfterRounds(work, w, runs))
    ensures var done := Round(work, AfterRounds(work, w, runs).(fates := last));
            && HoldAll(holds, done.world)
            && (Completes(work, holds, cost) && Clear(last, CallsFrom(cost, |w.state|, 0)) ==> done.result.Ok?)
            && (done.result.Ok? ==> FinishedFrom(finished, done.world.state, 0))
  {
    RoundsKeep(work, holds, finished, w, runs);
    var before := AfterRounds(work, w, runs);
    var start := before.(fates := last);
    NewCalls(holds, before, last);
    EachKeeps(work, holds, finished, start, 0);
    if Completes(work, holds, cost) && Clear(last, CallsFrom(cost, |w.state|, 0)) {
      EachCompletes(work, holds, finished, cost, start, 0);
    }
  }

  // ---------------------------------------------------------------- what failed rounds leave behind

  type Size<!S> = S -> nat

  function Total<S>(size: Size<S>, tenants: seq<S>): nat {
    if tenants == [] then 0 else size(tenants[0]) + Total(size, tenants[1..])
  }

  lemma {:induction false} OneChanges<S>(size: Size<S>, tenants: seq<S>, i: nat, s: S)
    requires i < |tenants|
    ensures Total(size, tenants[i := s]) + size(tenants[i]) == Total(size, tenants) + size(s)
  {
    var after := tenants[i := s];
    if i == 0 {
      assert after[1..] == tenants[1..];
    } else {
      OneChanges(size, tenants[1..], i - 1, s);
      assert after[1..] == tenants[1..][i - 1 := s];
    }
  }

  /** Work that leaves something behind only if it fails, and then one thing. */
  ghost predicate LeavesAt<S>(work: Work<S>, holds: Holds<S>, size: Size<S>, w: World<S>, i: nat) {
    var out := work(w, i);
    holds(w, i) ==> size(out.world.state) <= size(w.state) + (if out.result.Ok? then 0 else 1)
  }

  ghost predicate LeavesLittle<S(!new)>(work: Work<S>, holds: Holds<S>, size: Size<S>) {
    forall w: World<S>, i: nat :: LeavesAt(work, holds, size, w, i)
  }

  lemma {:induction false} EachLeavesLittle<S(!new)>(work: Work<S>, holds: Holds<S>, finished: Finished<S>,
                                                     size: Size<S>, w: World<seq<S>>, i: nat)
    requires Keeps(work, holds, finished) && LeavesLittle(work, holds, size) && HoldAll(holds, w) && i <= |w.state|
    ensures var out := EachFrom(work, w, i);
            Total(size, out.world.state) <= Total(size, w.state) + (if out.result.Ok? then 0 else 1)
    decreases |w.state| - i
  {
    if i < |w.state| {
      OneKeeps(work, holds, finished, w, i);
      var one := After(w, i, work(Acting(w, i), i));
      assert LeavesAt(work, holds, size, Acting(w, i), i);
      OneChanges(size, w.state, i, one.world.state[i]);
      if one.result.Ok? {
        EachLeavesLittle(work, holds, finished, size, one.world, i + 1);
      }
    }
  }

  /** Over a whole history: one thing a run at most, in all the tenants together. */
  lemma {:induction false} RoundsLeaveLittle<S(!new)>(work: Work<S>, holds: Holds<S>, finished: Finished<S>,
                                                      size: Size<S>, w: World<seq<S>>, runs: seq<seq<Fate>>)
    requires Keeps(work, holds, finished) && LeavesLittle(work, holds, size) && HoldAll(holds, w)
    ensures Total(size, AfterRounds(work, w, runs).state) <= Total(size, w.state) + |runs|
    decreases |runs|
  {
    if runs != [] {
      var start := w.(fates := runs[0]);
      NewCalls(holds, w, runs[0]);
      EachKeeps(work, holds, finished, start, 0);
      EachLeavesLittle(work, holds, finished, size, start, 0);
      RoundsLeaveLittle(work, holds, finished, size, Round(work, start).world, runs[1..]);
    }
  }
}
