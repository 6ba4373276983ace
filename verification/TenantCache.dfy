/**
 The tenant map the Twin holds against the file it came from, over every interleaving
 (`services/device-twin/src/tenants.rs`). Two bounds decide whether its "no such tenant" can be
 believed: how many lookups may be off the fast path at once, and what was published between the
 two reads of start-up. Both conditions are exact.
 */
module TenantCache {
  import opened Common
  import opened Decide
  import opened Tenants
  import opened Twin
  import Uuid

  /** A lookup that missed in the held map and has not returned yet. */
  predicate OffFastPath(h: Handler) {
    h.Connecting? && h.pc.Slug? && !h.pc.step.ReadMap?
  }

  ghost function Refreshing(s: State): set<nat> {
    set id | id in s.handlers && OffFastPath(s.handlers[id])
  }

  /** A run with never more than `k` lookups off the fast path at once. */
  ghost predicate BoundedRun(states: seq<State>, actions: seq<Action>, k: nat) {
    Run(states, actions) && forall i | 0 <= i < |states| :: |Refreshing(states[i])| <= k
  }

  // ---------------------------------------------------------------- one refresh at a time

  ghost predicate OneRefreshAtATime(s: State) {
    forall i, j | i in s.handlers && j in s.handlers && OffFastPath(s.handlers[i]) && OffFastPath(s.handlers[j]) ::
      i == j
  }

  lemma AtMostOneIsOne(s: State)
    requires |Refreshing(s)| <= 1
    ensures OneRefreshAtATime(s)
  {
    forall i, j | i in s.handlers && j in s.handlers && OffFastPath(s.handlers[i]) && OffFastPath(s.handlers[j])
      ensures i == j
    {
      if i != j {
        SubsetIsSmaller({i, j}, Refreshing(s));
      }
    }
  }

  /** The held map is never older than the recorded modification time. */
  predicate NotStale(c: Cache) { c.readVer <= c.slugsVer }

  /** What makes its refusals true: it is not stale, or the version it is stale against names nobody it lacks. */
  predicate Complete(c: Cache)
    requires c.slugsVer < |c.history| && c.readVer < |c.history|
  {
    NotStale(c) || LoadOf(c.history[c.readVer]).Keys <= LoadOf(c.history[c.slugsVer]).Keys
  }

  /** How far a lookup has come, against what is held. */
  predicate RefreshOk(c: Cache, tenantId: string, step: SlugPc) {
    match step
    case ReadMap => true
    case Stat => tenantId !in c.held.slugs
    case Compare(at) => tenantId !in c.held.slugs && c.slugsVer <= at && c.readVer <= at
    case Load(at) => c.slugsVer <= at && c.readVer <= at
    case WriteMap(at, ver) => c.slugsVer <= at && c.readVer <= at
    case WriteSeen(at, ver) => c.slugsVer == ver
  }

  predicate HandlerRefreshOk(c: Cache, h: Handler) {
    h.Connecting? && h.pc.Slug? && h.req.token.tenantId.Some? ==> RefreshOk(c, h.req.token.tenantId.value, h.pc.step)
  }

  ghost predicate RefreshesOk(s: State) {
    forall id | id in s.handlers :: HandlerRefreshOk(s.cache, s.handlers[id])
  }

  lemma SlugStepKeepsRefresh(c: Cache, tenantId: string, step: SlugPc)
    requires c.Consistent() && c.history != [] && SlugPcInRange(step, |c.history|) && RefreshOk(c, tenantId, step)
    ensures SlugEffect(c, step).Consistent()
    ensures var r := SlugStep(c, tenantId, step);
            r.Goto? ==> RefreshOk(SlugEffect(c, step), tenantId, r.step)
  {
  }

  lemma LookupStepKeepsRefresh(c: Cache, h: Handler)
    requires c.Consistent() && h.Connecting? && h.pc.Slug? && h.req.token.tenantId.Some? && c.history != []
    requires SlugPcInRange(h.pc.step, |c.history|) && HandlerRefreshOk(c, h)
    ensures SlugEffect(c, h.pc.step).Consistent() && HandlerRefreshOk(SlugEffect(c, h.pc.step), LookupStep(c, h))
  {
    SlugStepKeepsRefresh(c, h.req.token.tenantId.value, h.pc.step);
  }

  lemma ConnectStepKeepsRefresh(s: State, h: Handler, succeeds: bool)
    requires RegistryOk(s) && h.Connecting? && WellFormed(s, h) && HandlerRefreshOk(s.cache, h)
    ensures var (t, h') := ConnectStep(s, h, succeeds);
            HandlerRefreshOk(t.cache, h') && t.cache.Consistent()
    ensures !OffFastPath(h) ==> ConnectStep(s, h, succeeds).0.cache == s.cache
  {
    if h.pc.Slug? {
      LookupStepKeepsRefresh(s.cache, h);
    }
  }

  lemma ConnectStepKeepsCache(s: State, h: Handler, succeeds: bool)
    requires RegistryOk(s) && h.Connecting? && WellFormed(s, h) && HandlerRefreshOk(s.cache, h)
    ensures var t := ConnectStep(s, h, succeeds).0;
            && t.cache.Consistent()
            && (NotStale(s.cache) ==> NotStale(t.cache)) && (Complete(s.cache) ==> Complete(t.cache))
  {
    ConnectStepKeepsRefresh(s, h, succeeds);
  }

  /** Other lookups are not disturbed: they are on the fast path, or the stepping one changed nothing. */
  lemma OthersNotDisturbed(c: Cache, d: Cache, h: Handler)
    requires HandlerRefreshOk(c, h) && (c == d || !OffFastPath(h))
    ensures HandlerRefreshOk(d, h)
  {
  }

  lemma ConnectKeepsCache(s: State, id: nat, succeeds: bool)
    requires Inv(s) && RefreshesOk(s) && OneRefreshAtATime(s)
    requires id in s.handlers && s.handlers[id].Connecting? && WellFormed(s, s.handlers[id])
    ensures var t := Apply(s, Step(id, succeeds));
            && RefreshesOk(t) && t.cache.Consistent()
            && (NotStale(s.cache) ==> NotStale(t.cache)) && (Complete(s.cache) ==> Complete(t.cache))
  {
    var h := s.handlers[id];
    ConnectStepKeepsRefresh(s, h, succeeds);
    ConnectStepKeepsCache(s, h, succeeds);
    var (s', h') := ConnectStep(s, h, succeeds);
    var t := Apply(s, Step(id, succeeds));
    forall other | other in t.handlers ensures HandlerRefreshOk(t.cache, t.handlers[other]) {
      if other != id {
        OthersNotDisturbed(s.cache, t.cache, s.handlers[other]);
      }
    }
  }

  lemma ApplyKeepsCache(s: State, a: Action)
    requires Inv(s) && RefreshesOk(s) && OneRefreshAtATime(s) && Enabled(s, a)
    requires a.Step? ==> WellFormed(s, s.handlers[a.id])
    ensures var t := Apply(s, a);
            && RefreshesOk(t) && t.cache.Consistent()
            && (NotStale(s.cache) ==> NotStale(t.cache)) && (Complete(s.cache) ==> Complete(t.cache))
  {
    if a.Step? && s.handlers[a.id].Connecting? {
      ConnectKeepsCache(s, a.id, a.succeeds);
    } else {
      var t := Apply(s, a);
      forall id | id in t.handlers ensures HandlerRefreshOk(t.cache, t.handlers[id]) {
        if id in s.handlers && s.handlers[id] == t.handlers[id] {
          assert HandlerRefreshOk(s.cache, s.handlers[id]);
        }
      }
    }
  }

  /** With one refresh at a time both properties of the start hold ever after. */
  lemma {:induction false} CacheIsKept(states: seq<State>, actions: seq<Action>, i: nat)
    requires BoundedRun(states, actions, 1) && i < |states|
    ensures states[0].cache.Consistent() && states[i].cache.Consistent() && RefreshesOk(states[i])
    ensures NotStale(states[0].cache) ==> NotStale(states[i].cache)
    ensures Complete(states[0].cache) ==> Complete(states[i].cache)
  {
    if i > 0 {
      CacheIsKept(states, actions, i - 1);
      RunKeepsInv(states, actions, i - 1);
      AtMostOneIsOne(states[i - 1]);
      ApplyKeepsCache(states[i - 1], actions[i - 1]);
    }
  }

  // ---------------------------------------------------------------- the answers

  /** The version a lookup that returns here has checked the file against. */
  function Checked(step: SlugPc): Option<nat> {
    match step
    case Compare(at) => Some(at)
    case WriteSeen(at, ver) => Some(ver)
    case _ => None
  }

  /** If the next step answers "no such tenant", the version it checked names no such tenant. */
  predicate AnswerTrue(c: Cache, h: Handler) {
    h.Connecting? && h.pc.Slug? && h.req.token.tenantId.Some? && c.history != []
    && SlugPcInRange(h.pc.step, |c.history|) && SlugStep(c, h.req.token.tenantId.value, h.pc.step) == Return(None) ==>
      Checked(h.pc.step).Some? && h.req.token.tenantId.value !in LoadOf(c.history[Checked(h.pc.step).value])
  }

  ghost predicate AnswersTrue(s: State) {
    forall id | id in s.handlers :: AnswerTrue(s.cache, s.handlers[id])
  }

  lemma NoneIsTrue(c: Cache, h: Handler)
    requires c.Consistent() && Complete(c) && HandlerRefreshOk(c, h)
    ensures AnswerTrue(c, h)
  {
  }

  /**
   From a complete start, with one refresh at a time, every "no such tenant" is true of the version
   the lookup checked: the newest at its stat, or at its read.
   */
  lemma LookupAnswersAreTrue(states: seq<State>, actions: seq<Action>, i: nat)
    requires BoundedRun(states, actions, 1) && i < |states|
    requires states[0].cache.Consistent() && Complete(states[0].cache)
    ensures AnswersTrue(states[i])
  {
    CacheIsKept(states, actions, i);
    forall id | id in states[i].handlers ensures AnswerTrue(states[i].cache, states[i].handlers[id]) {
      NoneIsTrue(states[i].cache, states[i].handlers[id]);
    }
  }

  /** A slug that is answered was in some version read, however many refreshes overlap. */
  lemma SlugAnswersWereServed(states: seq<State>, actions: seq<Action>, i: nat, id: nat)
    requires Run(states, actions) && i < |states| && id in states[i].handlers
    requires states[i].handlers[id].Connecting? && states[i].handlers[id].pc.Slug?
    ensures WellFormed(states[i], states[i].handlers[id])
    ensures var c, h := states[i].cache, states[i].handlers[id];
            var r := SlugStep(c, h.req.token.tenantId.value, h.pc.step);
            r.Return? && r.slug.Some? ==> Served(c.history, h.req.token.tenantId.value, r.slug.value)
  {
    RunKeepsInv(states, actions, i);
    assert HandlerOk(states[i], states[i].handlers[id]);
    var c, h := states[i].cache, states[i].handlers[id];
    var r := SlugStep(c, h.req.token.tenantId.value, h.pc.step);
    if r.Return? && r.slug.Some? {
      SlugReturnsServed(c, h.req.token.tenantId.value, h.pc.step);
    }
  }

  // ---------------------------------------------------------------- building runs

  /** Some callers and nothing else: no verifier, no session, no time gone by. */
  function With(c: Cache, handlers: map<nat, Handler>): State {
    State(c, map[], map[], 0, {}, handlers)
  }

  ghost predicate Few(n: nat, s: State) { forall id | id in s.handlers :: id < n }

  /** There is a run from `s` to `t` in which only callers with a number below `n` appear. */
  ghost predicate Reaches(n: nat, s: State, t: State) {
    exists states, actions :: Run(states, actions) && states[0] == s && states[|states| - 1] == t
                              && forall i | 0 <= i < |states| :: Few(n, states[i])
  }

  lemma ReachesNext(n: nat, s: State, t: State, a: Action, u: State)
    requires Reaches(n, s, t) && Enabled(t, a) && (a.Step? ==> WellFormed(t, t.handlers[a.id]))
    requires u == Apply(t, a) && Few(n, u)
    ensures Reaches(n, s, u)
  {
    var states, actions :| Run(states, actions) && states[0] == s && states[|states| - 1] == t
                           && forall i | 0 <= i < |states| :: Few(n, states[i]);
    assert Run(states + [u], actions + [a]);
  }

  lemma ReachesFew(n: nat, s: State, t: State)
    requires Reaches(n, s, t)
    ensures Few(n, t)
  {
    var states, actions :| Run(states, actions) && states[0] == s && states[|states| - 1] == t
                           && forall i | 0 <= i < |states| :: Few(n, states[i]);
    assert Few(n, states[|states| - 1]);
  }

  function UpTo(n: nat): set<nat> { if n == 0 then {} else UpTo(n - 1) + {n - 1} }

  lemma {:induction false} UpToHasSize(n: nat)
    ensures |UpTo(n)| == n && forall k: nat :: k in UpTo(n) <==> k < n
  {
    if n > 0 {
      UpToHasSize(n - 1);
    }
  }

  lemma FewRefresh(n: nat, s: State)
    requires Few(n, s)
    ensures |Refreshing(s)| <= n
  {
    UpToHasSize(n);
    SubsetIsSmaller(Refreshing(s), UpTo(n));
  }

  lemma ReachedIsBounded(n: nat, k: nat, s: State, t: State) returns (states: seq<State>, actions: seq<Action>)
    requires Reaches(n, s, t) && n <= k
    ensures BoundedRun(states, actions, k) && states[0] == s && states[|states| - 1] == t
  {
    states, actions :| Run(states, actions) && states[0] == s && states[|states| - 1] == t
                       && forall i | 0 <= i < |states| :: Few(n, states[i]);
    forall i | 0 <= i < |states| ensures |Refreshing(states[i])| <= k {
      FewRefresh(n, states[i]);
    }
  }

  /** A caller at the given point of its first lookup, nothing established yet. */
  function At(req: Connect, pc: ConnectPc): Handler { Connecting(req, pc, Facts(false, None, false, None)) }

  /** A request that gets as far as looking its tenant up. */
  predicate Acceptable(req: Connect, tenantId: string) {
    DecideUserIdentity(req.username, req.vhost, req.clientId) == Allow && req.token.tenantId == Some(tenantId)
  }

  function Zeros(n: nat): string { if n == 0 then "" else "0" + Zeros(n - 1) }

  lemma {:induction false} ZerosAreDigits(n: nat)
    ensures |Zeros(n)| == n && Uuid.HexDigits(Zeros(n)).Some? && ':' !in Zeros(n)
  {
    if n > 0 {
      ZerosAreDigits(n - 1);
      assert Zeros(n)[1..] == Zeros(n - 1);
    }
  }

  /** There is such a request for every tenant identifier. */
  lemma SomeoneIsAcceptable(tenantId: string, digits: nat) returns (req: Connect)
    requires digits == 32
    ensures Acceptable(req, tenantId)
  {
    var u := Zeros(digits);
    ZerosAreDigits(digits);
    req := Connect(u, None, Some(ExpectedClientId(u)), Token(u, Some(tenantId), M2M_AUDIENCE, 0, true));
  }

  /** One step of a lookup: it goes on, or returns and the caller moves on. */
  lemma Looks(n: nat, s: State, c: Cache, hs: map<nat, Handler>, id: nat)
    requires Reaches(n, s, With(c, hs)) && id in hs && hs[id].Connecting? && hs[id].pc.Slug?
    requires hs[id].req.token.tenantId.Some? && c.history != [] && SlugPcInRange(hs[id].pc.step, |c.history|)
    ensures Reaches(n, s, With(SlugEffect(c, hs[id].pc.step), hs[id := LookupStep(c, hs[id])]))
  {
    ReachesFew(n, s, With(c, hs));
    var next := With(SlugEffect(c, hs[id].pc.step), hs[id := LookupStep(c, hs[id])]);
    ReachesNext(n, s, With(c, hs), Step(id, true), next);
  }

  lemma Arrives(n: nat, s: State, c: Cache, hs: map<nat, Handler>, id: nat, req: Connect)
    requires Reaches(n, s, With(c, hs)) && id !in hs && id < n
    ensures Reaches(n, s, With(c, hs[id := At(req, Identity)]))
  {
    ReachesFew(n, s, With(c, hs));
    ReachesNext(n, s, With(c, hs), Arrive(id, At(req, Identity)), With(c, hs[id := At(req, Identity)]));
  }

  lemma Passes(n: nat, s: State, c: Cache, hs: map<nat, Handler>, id: nat, req: Connect, tenantId: string)
    requires Acceptable(req, tenantId) && c.history != []
    requires Reaches(n, s, With(c, hs)) && id in hs && hs[id] == At(req, Identity)
    ensures Reaches(n, s, With(c, hs[id := At(req, Slug(ReadMap, Knows))]))
  {
    ReachesFew(n, s, With(c, hs));
    var peek := hs[id := At(req, Peek)];
    ReachesNext(n, s, With(c, hs), Step(id, true), With(c, peek));
    assert peek[id := At(req, Slug(ReadMap, Knows))] == hs[id := At(req, Slug(ReadMap, Knows))];
    ReachesNext(n, s, With(c, peek), Step(id, true), With(c, hs[id := At(req, Slug(ReadMap, Knows))]));
  }

  /** A caller arrives and comes to its first look at the held map. */
  lemma ComesToLook(n: nat, s: State, c: Cache, hs: map<nat, Handler>, id: nat, req: Connect, tenantId: string)
    requires Acceptable(req, tenantId) && c.history != []
    requires Reaches(n, s, With(c, hs)) && id !in hs && id < n
    ensures Reaches(n, s, With(c, hs[id := At(req, Slug(ReadMap, Knows))]))
  {
    Arrives(n, s, c, hs, id, req);
    var arrived := hs[id := At(req, Identity)];
    Passes(n, s, c, arrived, id, req, tenantId);
    assert arrived[id := At(req, Slug(ReadMap, Knows))] == hs[id := At(req, Slug(ReadMap, Knows))];
  }

  lemma Published(n: nat, s: State, c: Cache, hs: map<nat, Handler>, v: FileVersion)
    requires Reaches(n, s, With(c, hs)) && MtimesIncrease(c.history + [v])
    ensures Reaches(n, s, With(c.(history := c.history + [v]), hs))
  {
    ReachesFew(n, s, With(c, hs));
    ReachesNext(n, s, With(c, hs), Publish(v), With(c.(history := c.history + [v]), hs));
  }

  // ---------------------------------------------------------------- how many refreshes may overlap

  function Two(first: Handler, second: Handler): map<nat, Handler> { map[0 := first, 1 := second] }

  lemma FirstLooks(s: State, c: Cache, first: Handler, second: Handler)
    requires Reaches(2, s, With(c, Two(first, second))) && first.Connecting? && first.pc.Slug?
    requires first.req.token.tenantId.Some? && c.history != [] && SlugPcInRange(first.pc.step, |c.history|)
    ensures Reaches(2, s, With(SlugEffect(c, first.pc.step), Two(LookupStep(c, first), second)))
  {
    Looks(2, s, c, Two(first, second), 0);
    assert Two(first, second)[0 := LookupStep(c, first)] == Two(LookupStep(c, first), second);
  }

  lemma SecondLooks(s: State, c: Cache, first: Handler, second: Handler)
    requires Reaches(2, s, With(c, Two(first, second))) && second.Connecting? && second.pc.Slug?
    requires second.req.token.tenantId.Some? && c.history != [] && SlugPcInRange(second.pc.step, |c.history|)
    ensures Reaches(2, s, With(SlugEffect(c, second.pc.step), Two(first, LookupStep(c, second))))
  {
    Looks(2, s, c, Two(first, second), 1);
    assert Two(first, second)[1 := LookupStep(c, second)] == Two(first, LookupStep(c, second));
  }

  function EmptyStart(): State { With(Cache([Absent], Held(map[], None), 0, 0), map[]) }

  lemma StartReachesItself(n: nat, c: Cache)
    requires c.Consistent()
    ensures Reaches(n, With(c, map[]), With(c, map[]))
  {
    assert Run([With(c, map[])], []);
  }

  /** Both callers arrive, pass their identity checks and miss in the empty map. */
  lemma BothMiss(req: Connect, tenantId: string)
    requires Acceptable(req, tenantId)
    ensures var missed := At(req, Slug(Stat, Knows));
            Reaches(2, EmptyStart(), With(EmptyStart().cache, Two(missed, missed)))
  {
    var s, c, look := EmptyStart(), EmptyStart().cache, At(req, Slug(ReadMap, Knows));
    StartReachesItself(2, c);
    ComesToLook(2, s, c, map[], 0, req, tenantId);
    ComesToLook(2, s, c, map[0 := look], 1, req, tenantId);
    assert map[0 := look][1 := look] == Two(look, look);
    FirstLooks(s, c, look, look);
    SecondLooks(s, c, At(req, Slug(Stat, Knows)), look);
  }

  /** Two publications: the second names the tenant, the first does not. */
  function Versions(tenantId: string, slug: string): seq<FileVersion> {
    [Absent, Present(1, Some(map[])), Present(2, Some(map[tenantId := slug]))]
  }

  /** From its stat to its write, in an empty cache that keeps still meanwhile. */
  lemma FirstReads(s: State, c: Cache, req: Connect, n: nat, second: Handler)
    requires req.token.tenantId.Some? && c.held == Held(map[], None) && |c.history| == n + 1 && c.history[n].Present?
    requires Reaches(2, s, With(c, Two(At(req, Slug(Stat, Knows)), second)))
    ensures Reaches(2, s, With(c, Two(At(req, Slug(WriteMap(n, n), Knows)), second)))
  {
    FirstLooks(s, c, At(req, Slug(Stat, Knows)), second);
    FirstLooks(s, c, At(req, Slug(Compare(n), Knows)), second);
    FirstLooks(s, c, At(req, Slug(Load(n), Knows)), second);
  }

  lemma SecondReads(s: State, c: Cache, req: Connect, n: nat, first: Handler)
    requires req.token.tenantId.Some? && c.held == Held(map[], None) && |c.history| == n + 1 && c.history[n].Present?
    requires Reaches(2, s, With(c, Two(first, At(req, Slug(Stat, Knows)))))
    ensures Reaches(2, s, With(c, Two(first, At(req, Slug(WriteMap(n, n), Knows)))))
  {
    SecondLooks(s, c, first, At(req, Slug(Stat, Knows)));
    SecondLooks(s, c, first, At(req, Slug(Compare(n), Knows)));
    SecondLooks(s, c, first, At(req, Slug(Load(n), Knows)));
  }

  /** The first caller reads the version before the tenant is published, the second the one after. */
  lemma BothHaveRead(req: Connect, tenantId: string, slug: string)
    requires Acceptable(req, tenantId)
    ensures var c := Cache(Versions(tenantId, slug), Held(map[], None), 0, 0);
            var early, late := At(req, Slug(WriteMap(1, 1), Knows)), At(req, Slug(WriteMap(2, 2), Knows));
            Reaches(2, EmptyStart(), With(c, Two(early, late)))
  {
    BothMiss(req, tenantId);
    var s, h := EmptyStart(), Versions(tenantId, slug);
    var missed, first := At(req, Slug(Stat, Knows)), At(req, Slug(WriteMap(1, 1), Knows));
    var c1, c2 := Cache(h[..2], Held(map[], None), 0, 0), Cache(h, Held(map[], None), 0, 0);
    assert s.cache.history + [h[1]] == h[..2] && h[..2] + [h[2]] == h;
    Published(2, s, s.cache, Two(missed, missed), h[1]);
    FirstReads(s, c1, req, 1, missed);
    Published(2, s, c1, Two(first, missed), h[2]);
    SecondReads(s, c2, req, 2, first);
  }

  /** The second caller, told its tenant, as it starts its next lookup. */
  function Known(req: Connect, step: SlugPc): Handler {
    Connecting(req, Slug(step, ForVerifier), Facts(true, None, false, None))
  }

  /** The first caller was refused; the second goes on. */
  function OneRefused(req: Connect, step: SlugPc): map<nat, Handler> {
    Two(At(req, Done(Deny(UnknownTenant))), Known(req, step))
  }

  /** The older map held, the newer time recorded. */
  function Stale(tenantId: string, slug: string): Cache { Cache(Versions(tenantId, slug), Held(map[], Some(2)), 1, 2) }

  /**
   Newer map in, older map over it; older time in, newer time over it: the older map ends up
   recorded with the newer time.
   */
  lemma BothHaveWritten(req: Connect, tenantId: string, slug: string)
    requires Acceptable(req, tenantId)
    ensures Reaches(2, EmptyStart(), With(Stale(tenantId, slug), OneRefused(req, ReadMap)))
  {
    BothHaveRead(req, tenantId, slug);
    var s, h := EmptyStart(), Versions(tenantId, slug);
    var late, early := At(req, Slug(WriteMap(2, 2), Knows)), At(req, Slug(WriteMap(1, 1), Knows));
    SecondLooks(s, Cache(h, Held(map[], None), 0, 0), early, late);
    late := At(req, Slug(WriteSeen(2, 2), Knows));
    FirstLooks(s, Cache(h, Held(map[tenantId := slug], None), 2, 0), early, late);
    FirstLooks(s, Cache(h, Held(map[], None), 1, 0), At(req, Slug(WriteSeen(1, 1), Knows)), late);
    SecondLooks(s, Cache(h, Held(map[], Some(1)), 1, 1), At(req, Done(Deny(UnknownTenant))), late);
  }

  /** The same caller asks again and is about to be told there is no such tenant, which the newest file names. */
  lemma ThenOneIsRefused(req: Connect, tenantId: string, slug: string)
    requires Acceptable(req, tenantId)
    ensures Reaches(2, EmptyStart(), With(Stale(tenantId, slug), OneRefused(req, Compare(2))))
    ensures !AnswersTrue(With(Stale(tenantId, slug), OneRefused(req, Compare(2))))
  {
    BothHaveWritten(req, tenantId, slug);
    var s, c, first := EmptyStart(), Stale(tenantId, slug), At(req, Done(Deny(UnknownTenant)));
    SecondLooks(s, c, first, Known(req, ReadMap));
    SecondLooks(s, c, first, Known(req, Stat));
    assert !AnswerTrue(c, Two(first, Known(req, Compare(2)))[1]);
  }

  /** A tenant of the newest file is refused, and asking again changes nothing. */
  predicate Stuck(c: Cache, tenantId: string) {
    && c.history != []
    && tenantId in LoadOf(c.history[c.Newest()])
    && Lookup(c.held, tenantId, StatOf(c.history[c.Newest()]), LoadOf(c.history[c.Newest()])) == (None, c.held)
  }

  /**
   With two refreshes overlapping the cache can stick: from a clean start two ordinary requests for
   one tenant reach a state with no refresh under way in which the newest file's tenant is refused.
   */
  lemma OverlappingRefreshesCanStick(req: Connect, tenantId: string, slug: string)
    requires Acceptable(req, tenantId)
    ensures exists t ::
              Reaches(2, EmptyStart(), t) && Stuck(t.cache, tenantId) && !NotStale(t.cache) && Refreshing(t) == {}
  {
    BothHaveWritten(req, tenantId, slug);
    var t := With(Stale(tenantId, slug), OneRefused(req, ReadMap));
    assert Reaches(2, EmptyStart(), t) && Stuck(t.cache, tenantId);
  }

  /** State `i` of a run that starts from a cache not stale, with at most `k` lookups off the fast path. */
  ghost predicate RunsTo(states: seq<State>, actions: seq<Action>, k: nat, i: nat) {
    BoundedRun(states, actions, k) && NotStale(states[0].cache) && i < |states|
  }

  /** No such run goes stale. */
  ghost predicate NeverStale(k: nat) {
    forall states: seq<State>, actions: seq<Action>, i: nat | RunsTo(states, actions, k, i) :: NotStale(states[i].cache)
  }

  /** Every "no such tenant" of every such run is true of the version it checked. */
  ghost predicate AlwaysTrue(k: nat) {
    forall states: seq<State>, actions: seq<Action>, i: nat | RunsTo(states, actions, k, i) :: AnswersTrue(states[i])
  }

  lemma TwoAtATimeGoStale(k: nat)
    requires k >= 2
    ensures !NeverStale(k)
  {
    var req := SomeoneIsAcceptable("t", 32);
    OverlappingRefreshesCanStick(req, "t", "s");
    var t :| Reaches(2, EmptyStart(), t) && !NotStale(t.cache);
    var states, actions := ReachedIsBounded(2, k, EmptyStart(), t);
    assert RunsTo(states, actions, k, |states| - 1);
  }

  lemma TwoAtATimeAnswerFalsely(k: nat)
    requires k >= 2
    ensures !AlwaysTrue(k)
  {
    var req := SomeoneIsAcceptable("t", 32);
    ThenOneIsRefused(req, "t", "s");
    var t := With(Stale("t", "s"), OneRefused(req, Compare(2)));
    var states, actions := ReachedIsBounded(2, k, EmptyStart(), t);
    assert RunsTo(states, actions, k, |states| - 1);
  }

  /** Both hold if and only if at most one lookup at a time is off the fast path. */
  lemma SoundExactlyOneAtATime(k: nat)
    ensures NeverStale(k) <==> k <= 1
    ensures AlwaysTrue(k) <==> k <= 1
  {
    if k <= 1 {
      forall states: seq<State>, actions: seq<Action>, i: nat | RunsTo(states, actions, k, i)
        ensures NotStale(states[i].cache) && AnswersTrue(states[i])
      {
        CacheIsKept(states, actions, i);
        LookupAnswersAreTrue(states, actions, i);
      }
    } else {
      TwoAtATimeGoStale(k);
      TwoAtATimeAnswerFalsely(k);
    }
  }

  // ---------------------------------------------------------------- the start-up race

  /** What `new` leaves: version `i` was loaded, then version `j`, by then the newest, was statted. */
  function StartedAt(history: seq<FileVersion>, i: nat, j: nat): Cache
    requires i < |history| && j < |history|
  {
    Cache(history, Held(LoadOf(history[i]), StatOf(history[j])), i, j)
  }

  /** One caller, whose tenant version `j` names and version `i` does not, comes to be refused. */
  lemma OneIsMissed(history: seq<FileVersion>, i: nat, j: nat, req: Connect, tenantId: string)
    requires MtimesIncrease(history) && i <= j == |history| - 1 && Acceptable(req, tenantId)
    requires tenantId in LoadOf(history[j]) && tenantId !in LoadOf(history[i])
    ensures var c := StartedAt(history, i, j);
            var t := With(c, map[0 := At(req, Slug(Compare(j), Knows))]);
            Reaches(1, With(c, map[]), t) && !AnswersTrue(t)
  {
    var c := StartedAt(history, i, j);
    var s, look, missed := With(c, map[]), At(req, Slug(ReadMap, Knows)), At(req, Slug(Stat, Knows));
    StartReachesItself(1, c);
    ComesToLook(1, s, c, map[], 0, req, tenantId);
    Looks(1, s, c, map[0 := look], 0);
    assert map[0 := look][0 := missed] == map[0 := missed];
    Looks(1, s, c, map[0 := missed], 0);
    assert map[0 := missed][0 := At(req, Slug(Compare(j), Knows))] == map[0 := At(req, Slug(Compare(j), Knows))];
    assert !AnswerTrue(c, map[0 := At(req, Slug(Compare(j), Knows))][0]);
  }

  /**
   Started from those two reads, with one refresh at a time: every "no such tenant" of every run is
   true of the version it checked if and only if the statted version names no tenant the loaded one lacked.
   */
  lemma StartupIsSoundExactly(history: seq<FileVersion>, i: nat, j: nat)
    requires MtimesIncrease(history) && i <= j == |history| - 1
    ensures (forall states: seq<State>, actions: seq<Action>, n: nat | BoundedRun(states, actions, 1) && n < |states|
                                              && states[0].cache == StartedAt(history, i, j) :: AnswersTrue(states[n]))
            <==> LoadOf(history[j]).Keys <= LoadOf(history[i]).Keys
  {
    var c := StartedAt(history, i, j);
    if LoadOf(history[j]).Keys <= LoadOf(history[i]).Keys {
      forall states: seq<State>, actions: seq<Action>, n: nat |
        BoundedRun(states, actions, 1) && n < |states| && states[0].cache == c
        ensures AnswersTrue(states[n])
      {
        LookupAnswersAreTrue(states, actions, n);
      }
    } else {
      var tenantId :| tenantId in LoadOf(history[j]).Keys && tenantId !in LoadOf(history[i]).Keys;
      var req := SomeoneIsAcceptable(tenantId, 32);
      OneIsMissed(history, i, j, req, tenantId);
      var t := With(c, map[0 := At(req, Slug(Compare(j), Knows))]);
      var states, actions := ReachedIsBounded(1, 1, With(c, map[]), t);
      assert !AnswersTrue(states[|states| - 1]);
    }
  }
}
