/**
 The Device Twin as a concurrent state machine (`services/device-twin/src/rmq.rs` over
 `tenants.rs`). A handler is one request with a program counter; every lock acquisition, file
 access and await of the program is one step, and steps of all handlers, the clock and the file's
 writer interleave freely.

 Three fields record the past and decide nothing: `slugsVer` and `readVer` (which file versions the
 held map and the recorded time came from) and `accepted` (what verifiers have accepted).
 */
module Twin {
  import opened Common
  import opened Decide
  import opened Tenants
  import Naming
  import Text
  import Topic
  import Uuid

  const LEEWAY := 60

  /** An access token. `tenantId` is `None` when the claim cannot be read out of it. */
  datatype Token = Token(sub: string, tenantId: Option<string>, audience: string, exp: int, signatureOk: bool)

  /** What a verifier's success guarantees, and all that is assumed of it. */
  predicate Verifies(v: Verifier, t: Token, now: int) {
    && t.signatureOk
    && t.tenantId.Some? && Uuid.Parse(t.tenantId.value) == Some(v.tenant)
    && t.audience == v.audience
    && now <= t.exp + LEEWAY
  }

  datatype Acceptance = Acceptance(verifier: Verifier, token: Token, at: int)

  datatype Connect = Connect(username: string, vhost: Option<string>, clientId: Option<string>, token: Token)

  /** The steps of one slug lookup; `at` and `ver` are the file versions statted and read. */
  datatype SlugPc =
    | ReadMap
    | Stat
    | Compare(at: nat)
    | Load(at: nat)
    | WriteMap(at: nat, ver: nat)
    | WriteSeen(at: nat, ver: nat)

  /** Which of the three lookups of a CONNECT this is. */
  datatype Purpose = Knows | ForVerifier | ForSession

  datatype ConnectPc =
    | Identity
    | Peek
    | Slug(step: SlugPc, purpose: Purpose)
    | ReadVerifiers
    | WriteVerifier(built: Verifier)
    | Verify(verifier: Verifier)
    | Subject
    | Insert(slug: string)
    | Done(decision: Decision)

  /** The facts a CONNECT has established so far. */
  datatype Facts = Facts(known: bool, verifier: Option<Verifier>, verified: bool, slug: Option<string>)

  datatype AskPc = ReadSession | ReadClock(session: Option<Session>) | Answered(answer: Decision, at: int)

  datatype Handler =
    | Connecting(req: Connect, pc: ConnectPc, facts: Facts)
    | Asking(ask: Ask, askPc: AskPc)

  /** The tenant map file, version by version, and what the registry holds of it. */
  datatype Cache = Cache(history: seq<FileVersion>, held: Held, slugsVer: nat, readVer: nat) {
    predicate Consistent() {
      && history != [] && MtimesIncrease(history)
      && slugsVer < |history| && held.slugs == LoadOf(history[slugsVer])
      && readVer < |history| && held.readAt == StatOf(history[readVer])
    }

    function Newest(): nat
      requires history != []
    {
      |history| - 1
    }
  }

  datatype State = State(
    cache: Cache,
    verifiers: map<string, Verifier>,
    sessions: map<string, Session>,
    now: int,
    accepted: set<Acceptance>,
    handlers: map<nat, Handler>)

  datatype Action =
    | Arrive(id: nat, handler: Handler)
    | Step(id: nat, succeeds: bool)
    | Tick(now: int)
    | Publish(version: FileVersion)

  // ---------------------------------------------------------------- the steps

  function Find(m: TenantMap, tenantId: string): Option<string> {
    if tenantId in m then Some(m[tenantId]) else None
  }

  datatype SlugResult = Goto(step: SlugPc) | Return(slug: Option<string>)

  predicate SlugPcInRange(step: SlugPc, n: nat) {
    match step
    case Compare(at) => at < n
    case Load(at) => at < n
    case WriteMap(at, ver) => at <= ver < n
    case WriteSeen(at, ver) => at <= ver < n
    case _ => true
  }

  function SlugStep(c: Cache, tenantId: string, step: SlugPc): SlugResult
    requires c.history != [] && SlugPcInRange(step, |c.history|)
  {
    match step
    case ReadMap => if tenantId in c.held.slugs then Return(Some(c.held.slugs[tenantId])) else Goto(Stat)
    case Stat => Goto(Compare(c.Newest()))
    case Compare(at) => if c.held.readAt == StatOf(c.history[at]) then Return(None) else Goto(Load(at))
    case Load(at) => Goto(WriteMap(at, c.Newest()))
    case WriteMap(at, ver) => Goto(WriteSeen(at, ver))
    case WriteSeen(at, ver) => Return(Find(LoadOf(c.history[ver]), tenantId))
  }

  /** The cache after that step: only the two writes touch it. */
  function SlugEffect(c: Cache, step: SlugPc): Cache
    requires SlugPcInRange(step, |c.history|)
  {
    match step
    case WriteMap(at, ver) => c.(held := Held(LoadOf(c.history[ver]), c.held.readAt), slugsVer := ver)
    case WriteSeen(at, ver) => c.(held := Held(c.held.slugs, StatOf(c.history[at])), readVer := at)
    case _ => c
  }

  function Finish(h: Handler, reason: DenyReason): Handler
    requires h.Connecting?
  {
    h.(pc := Done(Deny(reason)))
  }

  /** Where a CONNECT goes when a lookup returns. */
  function AfterLookup(h: Handler, purpose: Purpose, slug: Option<string>): Handler
    requires h.Connecting?
  {
    match slug
    case None => Finish(h, UnknownTenant)
    case Some(found) =>
      match purpose
      case Knows => h.(pc := Slug(ReadMap, ForVerifier), facts := h.facts.(known := true))
      case ForVerifier => h.(pc := ReadVerifiers)
      case ForSession => h.(pc := Insert(found), facts := h.facts.(slug := slug))
  }

  /** The handler after one step of its lookup. */
  function LookupStep(c: Cache, h: Handler): Handler
    requires h.Connecting? && h.pc.Slug? && h.req.token.tenantId.Some?
    requires c.history != [] && SlugPcInRange(h.pc.step, |c.history|)
  {
    match SlugStep(c, h.req.token.tenantId.value, h.pc.step)
    case Goto(next) => h.(pc := Slug(next, h.pc.purpose))
    case Return(slug) => AfterLookup(h, h.pc.purpose, slug)
  }

  /** The steps that look at the request alone. */
  function LocalStep(h: Handler): Handler
    requires h.Connecting? && (h.pc.Identity? || h.pc.Peek? || h.pc.Subject?)
  {
    match h.pc
    case Identity =>
      var d := DecideUserIdentity(h.req.username, h.req.vhost, h.req.clientId);
      h.(pc := if d == Allow then Peek else Done(d))
    case Peek =>
      if h.req.token.tenantId.None? then Finish(h, UnknownTenant) else h.(pc := Slug(ReadMap, Knows))
    case Subject =>
      var d := DecideUserSubject(h.req.username, Some(h.req.token.sub));
      h.(pc := if d == Allow then Slug(ReadMap, ForSession) else Done(d))
  }

  /** Finding the tenant's verifier; a new one is built outside the lock, and building it may fail. */
  function FindVerifier(verifiers: map<string, Verifier>, h: Handler, succeeds: bool): Handler
    requires h.Connecting? && h.req.token.tenantId.Some?
  {
    var t := h.req.token.tenantId.value;
    if t in verifiers then h.(pc := Verify(verifiers[t]), facts := h.facts.(verifier := Some(verifiers[t])))
    else if Uuid.Parse(t).None? || !succeeds then Finish(h, UnknownTenant)
    else h.(pc := WriteVerifier(Verifier(Uuid.Parse(t).value, M2M_AUDIENCE)))
  }

  /** What a step needs of its own handler to be defined. */
  predicate WellFormed(s: State, h: Handler) {
    && s.cache.history != []
    && (h.Connecting? ==>
          && (h.pc.Slug? ==> SlugPcInRange(h.pc.step, |s.cache.history|))
          && (!h.pc.Identity? && !h.pc.Peek? && !h.pc.Done? ==> h.req.token.tenantId.Some?))
  }

  function ConnectStep(s: State, h: Handler, succeeds: bool): (State, Handler)
    requires h.Connecting? && WellFormed(s, h)
  {
    match h.pc
    case Slug(step, _) => (s.(cache := SlugEffect(s.cache, step)), LookupStep(s.cache, h))
    case ReadVerifiers => (s, FindVerifier(s.verifiers, h, succeeds))
    case WriteVerifier(built) =>
      (s.(verifiers := s.verifiers[h.req.token.tenantId.value := built]),
       h.(pc := Verify(built), facts := h.facts.(verifier := Some(built))))
    case Verify(v) =>
      if succeeds
      then (s.(accepted := s.accepted + {Acceptance(v, h.req.token, s.now)}),
            h.(pc := Subject, facts := h.facts.(verified := true)))
      else (s, Finish(h, TokenDidNotVerify))
    case Insert(slug) =>
      (s.(sessions := s.sessions[h.req.username := Session(h.req.token.tenantId.value, slug, h.req.token.exp)]),
       h.(pc := Done(Allow)))
    case Done(_) => (s, h)
    case _ => (s, LocalStep(h))
  }

  /** A token-less request reads the cache, then the clock, and answers from those two alone. */
  function AskStep(s: State, h: Handler): Handler
    requires h.Asking?
  {
    match h.askPc
    case ReadSession =>
      h.(askPc := ReadClock(if h.ask.username in s.sessions then Some(s.sessions[h.ask.username]) else None))
    case ReadClock(session) => h.(askPc := Answered(Answer(h.ask, session, s.now), s.now))
    case Answered(_, _) => h
  }

  predicate IsNew(h: Handler) {
    match h
    case Connecting(_, pc, facts) => pc == Identity && facts == Facts(false, None, false, None)
    case Asking(_, pc) => pc == ReadSession
  }

  ghost predicate Enabled(s: State, a: Action) {
    match a
    case Arrive(id, h) => id !in s.handlers && IsNew(h)
    case Step(id, succeeds) =>
      && id in s.handlers
      && var h := s.handlers[id];
         h.Connecting? && h.pc.Verify? && succeeds ==> Verifies(h.pc.verifier, h.req.token, s.now)
    case Tick(now) => s.now <= now
    case Publish(v) => MtimesIncrease(s.cache.history + [v])
  }

  function Apply(s: State, a: Action): State
    requires a.Step? && a.id in s.handlers ==> WellFormed(s, s.handlers[a.id])
  {
    match a
    case Arrive(id, h) => s.(handlers := s.handlers[id := h])
    case Step(id, succeeds) =>
      if id !in s.handlers then s
      else
        var h := s.handlers[id];
        if h.Connecting? then
          var (s', h') := ConnectStep(s, h, succeeds);
          s'.(handlers := s.handlers[id := h'])
        else s.(handlers := s.handlers[id := AskStep(s, h)])
    case Tick(now) => s.(now := now)
    case Publish(v) => s.(cache := s.cache.(history := s.cache.history + [v]))
  }

  // ---------------------------------------------------------------- the invariant

  predicate Gives(v: FileVersion, tenantId: string, slug: string) {
    Find(LoadOf(v), tenantId) == Some(slug)
  }

  /** Some version of the file gave this tenant this slug. */
  ghost predicate Served(history: seq<FileVersion>, tenantId: string, slug: string) {
    exists v | 0 <= v < |history| :: Gives(history[v], tenantId, slug)
  }

  predicate Backs(a: Acceptance, u: string, s: Session) {
    a.token.sub == u && a.token.tenantId == Some(s.tenantId) && a.token.exp == s.exp
  }

  /** The session was put there for a service account by a token some verifier accepted. */
  ghost predicate Witnessed(s: State, u: string, session: Session) {
    && IsServiceAccountId(u)
    && (exists a :: a in s.accepted && Backs(a, u, session))
    && Served(s.cache.history, session.tenantId, session.tenantSlug)
  }

  ghost predicate SessionsOk(s: State) {
    forall u | u in s.sessions :: Witnessed(s, u, s.sessions[u])
  }

  ghost predicate AcceptancesOk(s: State) {
    forall a | a in s.accepted :: Verifies(a.verifier, a.token, a.at) && a.verifier.audience == M2M_AUDIENCE &&
        a.at <= s.now
  }

  predicate RegistryOk(s: State) {
    s.cache.Consistent() && AllPinned(s.verifiers)
  }

  function FactsOf(h: Handler): UserFacts
    requires h.Connecting?
  {
    UserFacts(h.req.username, h.req.vhost, h.req.clientId,
              if h.facts.verified then Some(h.req.token.sub) else None)
  }

  /** Every check of a CONNECT other than the decision core's own. */
  predicate TenantChecksPassed(h: Handler)
    requires h.Connecting?
  {
    h.req.token.tenantId.Some? && h.facts.known && h.facts.verifier.Some? && h.facts.slug.Some?
  }

  ghost predicate ConnectOk(s: State, h: Handler)
    requires h.Connecting?
  {
    var f := h.facts;
    var passedIdentity := DecideUserIdentity(h.req.username, h.req.vhost, h.req.clientId) == Allow;
    && WellFormed(s, h)
    && (!h.pc.Identity? && !h.pc.Done? ==> passedIdentity)
    && (f.known || f.verifier.Some? || f.verified || f.slug.Some? ==> passedIdentity && h.req.token.tenantId.Some?)
    && (f.verifier.Some? ==> f.known && PinnedTo(f.verifier.value, h.req.token.tenantId.value))
    && (f.verified ==>
          f.verifier.Some? && exists a :: a in s.accepted && a.verifier == f.verifier.value && a.token == h.req.token)
    && (f.slug.Some? ==> f.verified && h.req.token.sub == h.req.username
                         && Served(s.cache.history, h.req.token.tenantId.value, f.slug.value))
    && (match h.pc
        case Identity => f == Facts(false, None, false, None)
        case Peek => f == Facts(false, None, false, None)
        case Slug(step, purpose) =>
          && (purpose.Knows? ==> f == Facts(false, None, false, None))
          && (purpose.ForVerifier? ==> f == Facts(true, None, false, None))
          && (purpose.ForSession? ==> f.verified && f.slug.None? && h.req.token.sub == h.req.username)
        case ReadVerifiers => f == Facts(true, None, false, None)
        case WriteVerifier(v) => f == Facts(true, None, false, None) && PinnedTo(v, h.req.token.tenantId.value)
        case Verify(v) => f == Facts(true, Some(v), false, None)
        case Subject => f.verified && f.slug.None?
        case Insert(slug) => f.slug == Some(slug)
        case Done(d) => d == Allow <==> f.slug.Some?)
  }

  ghost predicate AskOk(s: State, h: Handler)
    requires h.Asking?
  {
    match h.askPc
    case ReadSession => true
    case ReadClock(session) => session.Some? ==> Witnessed(s, h.ask.username, session.value)
    case Answered(d, at) =>
      && at <= s.now
      && (d == Allow ==> exists session :: Witnessed(s, h.ask.username, session) && at < session.exp
                                           && Admissible(h.ask, session.tenantSlug))
  }

  ghost predicate HandlerOk(s: State, h: Handler) {
    if h.Connecting? then ConnectOk(s, h) else AskOk(s, h)
  }

  ghost predicate Inv(s: State) {
    && RegistryOk(s) && AcceptancesOk(s) && SessionsOk(s)
    && forall id | id in s.handlers :: HandlerOk(s, s.handlers[id])
  }

  /** The registry just built and warmed: loaded at one version, statted at the same or a later one. */
  ghost predicate Initial(s: State) {
    RegistryOk(s) && s.sessions == map[] && s.accepted == {} && s.handlers == map[]
  }

  // ---------------------------------------------------------------- preservation

  /** What handlers and sessions rely on only grows. */
  ghost predicate Grows(s: State, t: State) {
    && s.cache.history <= t.cache.history && s.accepted <= t.accepted && s.now <= t.now
  }

  lemma HandlerOkGrows(s: State, t: State, h: Handler)
    requires Grows(s, t) && HandlerOk(s, h)
    ensures HandlerOk(t, h)
  {
  }

  lemma SlugReturnsServed(c: Cache, tenantId: string, step: SlugPc)
    requires c.Consistent() && SlugPcInRange(step, |c.history|)
    requires SlugStep(c, tenantId, step).Return? && SlugStep(c, tenantId, step).slug.Some?
    ensures Served(c.history, tenantId, SlugStep(c, tenantId, step).slug.value)
  {
  }

  lemma SlugEffectIsConsistent(c: Cache, step: SlugPc)
    requires c.Consistent() && SlugPcInRange(step, |c.history|)
    ensures SlugEffect(c, step).Consistent() && SlugEffect(c, step).history == c.history
  {
  }

  lemma LookupStepKeepsHandler(s: State, h: Handler)
    requires RegistryOk(s) && h.Connecting? && ConnectOk(s, h) && h.pc.Slug?
    ensures ConnectOk(s, LookupStep(s.cache, h))
  {
  }

  lemma LocalStepKeepsHandler(s: State, h: Handler)
    requires h.Connecting? && ConnectOk(s, h) && (h.pc.Identity? || h.pc.Peek? || h.pc.Subject?)
    ensures ConnectOk(s, LocalStep(h))
  {
  }

  lemma VerifierStepKeepsHandler(s: State, h: Handler, succeeds: bool)
    requires RegistryOk(s) && h.Connecting? && ConnectOk(s, h) && h.pc.ReadVerifiers?
    ensures ConnectOk(s, FindVerifier(s.verifiers, h, succeeds))
  {
  }

  /** The stepping handler, in the state its own step leaves behind. */
  lemma ConnectStepKeepsHandler(s: State, h: Handler, succeeds: bool)
    requires RegistryOk(s) && h.Connecting? && ConnectOk(s, h)
    ensures ConnectOk(ConnectStep(s, h, succeeds).0, ConnectStep(s, h, succeeds).1)
  {
    var (t, h') := ConnectStep(s, h, succeeds);
    match h.pc
    case Slug(step, _) =>
      LookupStepKeepsHandler(s, h);
      SlugEffectIsConsistent(s.cache, step);
      HandlerOkGrows(s, t, h');
    case ReadVerifiers =>
      VerifierStepKeepsHandler(s, h, succeeds);
    case Verify(v) =>
      if succeeds {
        assert Acceptance(v, h.req.token, s.now) in t.accepted;
      }
    case Identity => LocalStepKeepsHandler(s, h);
    case Peek => LocalStepKeepsHandler(s, h);
    case Subject => LocalStepKeepsHandler(s, h);
    case _ =>
  }

  lemma ConnectStepKeepsRegistry(s: State, h: Handler, succeeds: bool)
    requires RegistryOk(s) && h.Connecting? && ConnectOk(s, h)
    ensures RegistryOk(ConnectStep(s, h, succeeds).0) && Grows(s, ConnectStep(s, h, succeeds).0)
    ensures ConnectStep(s, h, succeeds).0.handlers == s.handlers
  {
    if h.pc.Slug? {
      SlugEffectIsConsistent(s.cache, h.pc.step);
    }
  }

  lemma VerifyKeepsAcceptances(s: State, h: Handler, succeeds: bool)
    requires AcceptancesOk(s) && h.Connecting? && ConnectOk(s, h)
    requires h.pc.Verify? && succeeds ==> Verifies(h.pc.verifier, h.req.token, s.now)
    ensures AcceptancesOk(ConnectStep(s, h, succeeds).0)
  {
  }

  lemma ConnectStepKeepsSessions(s: State, h: Handler, succeeds: bool)
    requires RegistryOk(s) && SessionsOk(s) && h.Connecting? && ConnectOk(s, h)
    ensures SessionsOk(ConnectStep(s, h, succeeds).0)
  {
  }

  lemma AskStepKeepsHandler(s: State, h: Handler)
    requires SessionsOk(s) && h.Asking? && AskOk(s, h)
    ensures AskOk(s, AskStep(s, h))
  {
    if h.askPc.ReadClock? {
      TokenlessAllowExactly(h.ask, h.askPc.session, s.now);
    }
  }

  lemma OthersKept(s: State, t: State, id: nat)
    requires Inv(s) && Grows(s, t)
    requires forall other | other in t.handlers && other != id ::
             other in s.handlers && t.handlers[other] == s.handlers[other]
    ensures forall other | other in t.handlers && other != id :: HandlerOk(t, t.handlers[other])
  {
  }

  lemma SessionsCarryOver(s: State, t: State)
    requires SessionsOk(s) && AcceptancesOk(s) && Grows(s, t) && t.sessions == s.sessions && t.accepted == s.accepted
    ensures SessionsOk(t) && AcceptancesOk(t)
  {
  }

  /** Putting the stepped handler back: the rest of the state is unchanged, the other handlers' facts still hold. */
  lemma StoreKeepsInv(s: State, s': State, id: nat, h': Handler)
    requires Inv(s) && id in s.handlers && Grows(s, s') && s'.handlers == s.handlers
    requires RegistryOk(s') && AcceptancesOk(s') && SessionsOk(s') && HandlerOk(s', h')
    ensures Inv(s'.(handlers := s.handlers[id := h'])) && Grows(s, s'.(handlers := s.handlers[id := h']))
  {
    var t := s'.(handlers := s.handlers[id := h']);
    HandlerOkGrows(s', t, h');
    SessionsCarryOver(s', t);
    OthersKept(s, t, id);
  }

  lemma ConnectKeepsInv(s: State, id: nat, succeeds: bool)
    requires Inv(s) && Enabled(s, Step(id, succeeds)) && s.handlers[id].Connecting?
    ensures WellFormed(s, s.handlers[id]) && Inv(Apply(s, Step(id, succeeds)))
    ensures Grows(s, Apply(s, Step(id, succeeds)))
  {
    var h := s.handlers[id];
    assert HandlerOk(s, h);
    ConnectStepKeepsRegistry(s, h, succeeds);
    ConnectStepKeepsHandler(s, h, succeeds);
    ConnectStepKeepsSessions(s, h, succeeds);
    VerifyKeepsAcceptances(s, h, succeeds);
    var (s', h') := ConnectStep(s, h, succeeds);
    StoreKeepsInv(s, s', id, h');
  }

  lemma AskKeepsInv(s: State, id: nat, succeeds: bool)
    requires Inv(s) && Enabled(s, Step(id, succeeds)) && s.handlers[id].Asking?
    ensures WellFormed(s, s.handlers[id]) && Inv(Apply(s, Step(id, succeeds)))
    ensures Grows(s, Apply(s, Step(id, succeeds)))
  {
    var h := s.handlers[id];
    assert HandlerOk(s, h);
    AskStepKeepsHandler(s, h);
    StoreKeepsInv(s, s, id, AskStep(s, h));
  }

  lemma ApplyKeepsInv(s: State, a: Action)
    requires Inv(s) && Enabled(s, a)
    ensures a.Step? ==> WellFormed(s, s.handlers[a.id])
    ensures Inv(Apply(s, a)) && Grows(s, Apply(s, a))
  {
    if a.Step? {
      if s.handlers[a.id].Connecting? {
        ConnectKeepsInv(s, a.id, a.succeeds);
      } else {
        AskKeepsInv(s, a.id, a.succeeds);
      }
    } else {
      var t := Apply(s, a);
      SessionsCarryOver(s, t);
      OthersKept(s, t, if a.Arrive? then a.id else 0);
      if !a.Arrive? && 0 in s.handlers {
        HandlerOkGrows(s, t, s.handlers[0]);
      }
    }
  }

  // ---------------------------------------------------------------- runs

  /** Each state follows from the one before it by an enabled action. */
  ghost predicate Run(states: seq<State>, actions: seq<Action>) {
    && |states| == |actions| + 1
    && Initial(states[0])
    && forall i | 0 <= i < |actions| ::
         && Enabled(states[i], actions[i])
         && (actions[i].Step? ==> WellFormed(states[i], states[i].handlers[actions[i].id]))
         && states[i + 1] == Apply(states[i], actions[i])
  }

  /** Over every interleaving, the invariant holds in every state. */
  lemma {:induction false} RunKeepsInv(states: seq<State>, actions: seq<Action>, i: nat)
    requires Run(states, actions) && i < |states|
    ensures Inv(states[i])
  {
    if i > 0 {
      RunKeepsInv(states, actions, i - 1);
      ApplyKeepsInv(states[i - 1], actions[i - 1]);
    }
  }

  // ---------------------------------------------------------------- safety over every interleaving

  /** Request `id` is a CONNECT that was allowed, of this user and with this very session's facts. */
  ghost predicate WroteBy(s: State, id: nat, u: string, session: Session) {
    && id in s.handlers && s.handlers[id].Connecting? && s.handlers[id].pc == Done(Allow)
    && s.handlers[id].req.username == u
    && s.handlers[id].req.token.tenantId == Some(session.tenantId)
    && s.handlers[id].req.token.exp == session.exp
    && s.handlers[id].facts.slug == Some(session.tenantSlug)
  }

  ghost predicate Written(s: State, u: string, session: Session) {
    exists id :: WroteBy(s, id, u, session)
  }

  /** Every entry of the cache was left there by an allowed CONNECT. */
  ghost predicate EntriesWritten(s: State) {
    forall u | u in s.sessions :: Written(s, u, s.sessions[u])
  }

  lemma WrittenStays(s: State, a: Action, u: string, session: Session)
    requires Inv(s) && Enabled(s, a) && (a.Step? ==> WellFormed(s, s.handlers[a.id]))
    requires Written(s, u, session)
    ensures Written(Apply(s, a), u, session)
  {
    var id :| WroteBy(s, id, u, session);
    assert WroteBy(Apply(s, a), id, u, session);
  }

  lemma OnlyInsertWrites(s: State, h: Handler, succeeds: bool)
    requires h.Connecting? && WellFormed(s, h)
    ensures var (t, h') := ConnectStep(s, h, succeeds);
            t.sessions != s.sessions ==>
              && h.pc.Insert? && h'.Connecting? && h'.pc == Done(Allow)
              && t.sessions ==
                 s.sessions[h.req.username := Session(h.req.token.tenantId.value, h.pc.slug, h.req.token.exp)]
  {
  }

  /** Nothing but the last step of an allowed CONNECT writes the cache, and it writes its own user's entry only. */
  lemma OnlyConnectWritesSessions(s: State, a: Action)
    requires Inv(s) && Enabled(s, a) && (a.Step? ==> WellFormed(s, s.handlers[a.id]))
    ensures Apply(s, a).sessions != s.sessions ==>
              && a.Step? && s.handlers[a.id].Connecting? && s.handlers[a.id].pc.Insert?
              && Apply(s, a).handlers[a.id].pc == Done(Allow)
              && forall u | u != s.handlers[a.id].req.username ::
                   (u in Apply(s, a).sessions <==> u in s.sessions)
                   && (u in s.sessions ==> Apply(s, a).sessions[u] == s.sessions[u])
  {
    if a.Step? && s.handlers[a.id].Connecting? {
      OnlyInsertWrites(s, s.handlers[a.id], a.succeeds);
    }
  }

  lemma EntriesStayWritten(s: State, a: Action)
    requires Inv(s) && Enabled(s, a) && (a.Step? ==> WellFormed(s, s.handlers[a.id]))
    requires EntriesWritten(s)
    ensures EntriesWritten(Apply(s, a))
  {
    var t := Apply(s, a);
    OnlyConnectWritesSessions(s, a);
    forall u | u in t.sessions ensures Written(t, u, t.sessions[u]) {
      if t.sessions != s.sessions && u == s.handlers[a.id].req.username {
        assert HandlerOk(s, s.handlers[a.id]);
        assert WroteBy(t, a.id, u, t.sessions[u]);
      } else {
        WrittenStays(s, a, u, s.sessions[u]);
      }
    }
  }

  lemma {:induction false} RunKeepsEntriesWritten(states: seq<State>, actions: seq<Action>, i: nat)
    requires Run(states, actions) && i < |states|
    ensures EntriesWritten(states[i])
  {
    if i > 0 {
      RunKeepsEntriesWritten(states, actions, i - 1);
      RunKeepsInv(states, actions, i - 1);
      EntriesStayWritten(states[i - 1], actions[i - 1]);
    }
  }

  lemma WrittenStaysNext(states: seq<State>, actions: seq<Action>, i: nat, u: string, session: Session)
    requires Run(states, actions) && i < |actions| && Written(states[i], u, session)
    ensures Written(states[i + 1], u, session)
  {
    RunKeepsInv(states, actions, i);
    WrittenStays(states[i], actions[i], u, session);
  }

  lemma {:induction false} WrittenStaysOn(states: seq<State>, actions: seq<Action>, j: nat, i: nat, u: string,
                                          session: Session)
    requires Run(states, actions) && j <= i < |states| && Written(states[j], u, session)
    ensures Written(states[i], u, session)
    decreases i
  {
    if j < i {
      WrittenStaysOn(states, actions, j, i - 1, u, session);
      WrittenStaysNext(states, actions, i - 1, u, session);
    }
  }

  /**
   A session with everything behind it: an allowed CONNECT of that very user whose token a verifier
   pinned to that tenant accepted, the identity chain of the request, and a slug the file once gave.
   */
  ghost predicate Vouched(s: State, id: nat, u: string, session: Session) {
    && WroteBy(s, id, u, session)
    && DecideUser(FactsOf(s.handlers[id])) == Allow && TenantChecksPassed(s.handlers[id])
    && Served(s.cache.history, session.tenantId, session.tenantSlug)
    && exists a :: a in s.accepted && a.token == s.handlers[id].req.token && Backs(a, u, session)
                   && PinnedTo(a.verifier, session.tenantId) && Verifies(a.verifier, a.token, a.at) && a.at <= s.now
  }

  lemma WrittenIsVouched(s: State, u: string, session: Session) returns (id: nat)
    requires Inv(s) && Written(s, u, session)
    ensures Vouched(s, id, u, session)
  {
    id :| WroteBy(s, id, u, session);
    assert HandlerOk(s, s.handlers[id]);
  }

  /**
   Whatever the interleaving, a cached session was left there by a CONNECT that was allowed, for that
   user, on a token that a verifier pinned to that very tenant accepted, with the session's tenant
   and expiry, and on a slug some version of the tenant map gave.
   */
  lemma EverySessionHasAWitness(states: seq<State>, actions: seq<Action>, i: nat, u: string) returns (id: nat)
    requires Run(states, actions) && i < |states| && u in states[i].sessions
    ensures Vouched(states[i], id, u, states[i].sessions[u]) && IsServiceAccountId(u)
  {
    RunKeepsInv(states, actions, i);
    RunKeepsEntriesWritten(states, actions, i);
    id := WrittenIsVouched(states[i], u, states[i].sessions[u]);
  }

  /** The session was the cache's entry for this user in state `j`. */
  ghost predicate Entry(states: seq<State>, j: nat, u: string, session: Session) {
    j < |states| && u in states[j].sessions && states[j].sessions[u] == session
  }

  /** Which sessions have been entries by state `i`. */
  ghost function EntriesUpTo(states: seq<State>, i: nat): (string, Session) -> bool {
    (u: string, session: Session) => exists j: nat :: j <= i && Entry(states, j, u, session)
  }

  /** What a token-less request holds or answered from was an entry of the cache. */
  ghost predicate Traced(was: (string, Session) -> bool, h: Handler)
    requires h.Asking?
  {
    match h.askPc
    case ReadSession => true
    case ReadClock(session) => session.Some? ==> was(h.ask.username, session.value)
    case Answered(d, at) =>
      d == Allow ==>
          exists session :: was(h.ask.username, session) && at < session.exp && Admissible(h.ask, session.tenantSlug)
  }

  lemma AskStepIsTraced(was: (string, Session) -> bool, s: State, h: Handler)
    requires h.Asking? && Traced(was, h) && forall u | u in s.sessions :: was(u, s.sessions[u])
    ensures Traced(was, AskStep(s, h))
  {
    if h.askPc.ReadClock? {
      TokenlessAllowExactly(h.ask, h.askPc.session, s.now);
    }
  }

  lemma TracedLonger(states: seq<State>, i: nat, h: Handler)
    requires h.Asking? && Traced(EntriesUpTo(states, i), h)
    ensures Traced(EntriesUpTo(states, i + 1), h)
  {
    var was, later := EntriesUpTo(states, i), EntriesUpTo(states, i + 1);
    forall u, session | was(u, session) ensures later(u, session) {
      var j: nat :| j <= i && Entry(states, j, u, session);
      assert j <= i + 1;
    }
  }

  lemma StateIsAmongEntries(states: seq<State>, i: nat)
    requires i < |states|
    ensures forall u | u in states[i].sessions :: EntriesUpTo(states, i)(u, states[i].sessions[u])
  {
    forall u | u in states[i].sessions ensures EntriesUpTo(states, i)(u, states[i].sessions[u]) {
      assert Entry(states, i, u, states[i].sessions[u]);
    }
  }

  /** What an action does to a token-less request: nothing, its own step, or its arrival. */
  lemma AskMoves(s: State, a: Action, id: nat)
    requires Enabled(s, a) && (a.Step? ==> WellFormed(s, s.handlers[a.id]))
    requires id in Apply(s, a).handlers && Apply(s, a).handlers[id].Asking?
    ensures id !in s.handlers ==> Apply(s, a).handlers[id].askPc == ReadSession
    ensures id in s.handlers ==>
              && s.handlers[id].Asking?
              && (Apply(s, a).handlers[id] == s.handlers[id] || Apply(s, a).handlers[id] == AskStep(s, s.handlers[id]))
  {
  }

  lemma {:induction false} AsksAreTraced(states: seq<State>, actions: seq<Action>, i: nat, id: nat)
    requires Run(states, actions) && i < |states| && id in states[i].handlers && states[i].handlers[id].Asking?
    ensures Traced(EntriesUpTo(states, i), states[i].handlers[id])
  {
    if i > 0 {
      var k := i - 1;
      assert states[k + 1] == Apply(states[k], actions[k]);
      AskMoves(states[k], actions[k], id);
      if id in states[k].handlers {
        var h := states[k].handlers[id];
        AsksAreTraced(states, actions, k, id);
        StateIsAmongEntries(states, k);
        AskStepIsTraced(EntriesUpTo(states, k), states[k], h);
        TracedLonger(states, k, h);
        TracedLonger(states, k, AskStep(states[k], h));
      }
    }
  }

  lemma EntryIsVouchedLater(states: seq<State>, actions: seq<Action>, j: nat, i: nat, u: string, session: Session)
    returns (writer: nat)
    requires Run(states, actions) && j <= i < |states| && Entry(states, j, u, session)
    ensures Vouched(states[i], writer, u, session) && IsServiceAccountId(u)
  {
    RunKeepsEntriesWritten(states, actions, j);
    WrittenStaysOn(states, actions, j, i, u, session);
    RunKeepsInv(states, actions, i);
    writer := WrittenIsVouched(states[i], u, session);
  }

  /**
   A token-less allow rests on an entry the cache held, live at the instant the clock was read, that
   an allowed CONNECT of that user left there.
   */
  lemma EveryTokenlessAllowIsBacked(states: seq<State>, actions: seq<Action>, i: nat, id: nat)
    returns (j: nat, session: Session, writer: nat)
    requires Run(states, actions) && i < |states| && id in states[i].handlers
    requires states[i].handlers[id].Asking? && states[i].handlers[id].askPc.Answered?
    requires states[i].handlers[id].askPc.answer == Allow
    ensures var h := states[i].handlers[id];
            && j <= i && Entry(states, j, h.ask.username, session)
            && Vouched(states[i], writer, h.ask.username, session) && IsServiceAccountId(h.ask.username)
            && h.askPc.at < session.exp && Admissible(h.ask, session.tenantSlug)
  {
    var h := states[i].handlers[id];
    AsksAreTraced(states, actions, i, id);
    session :| EntriesUpTo(states, i)(h.ask.username, session) && h.askPc.at < session.exp
               && Admissible(h.ask, session.tenantSlug);
    j :| j <= i && Entry(states, j, h.ask.username, session);
    writer := EntryIsVouchedLater(states, actions, j, i, h.ask.username, session);
  }

  /**
   A finished CONNECT allows exactly when the decision core allows on the verified facts and every
   tenant check passed; and no request whose identity is refused ever reaches a verifier.
   */
  lemma ConnectAllowsExactly(states: seq<State>, actions: seq<Action>, i: nat, id: nat)
    requires Run(states, actions) && i < |states| && id in states[i].handlers
    requires states[i].handlers[id].Connecting?
    ensures var h := states[i].handlers[id];
            && (h.pc.Done? ==> (h.pc.decision == Allow <==> DecideUser(FactsOf(h)) == Allow && TenantChecksPassed(h)))
            && (h.facts.verifier.Some? || h.pc.Verify? ==>
                  DecideUserIdentity(h.req.username, h.req.vhost, h.req.clientId) == Allow)
            && (h.facts.verifier.Some? ==>
                  h.req.token.tenantId.Some? && PinnedTo(h.facts.verifier.value, h.req.token.tenantId.value))
            && (h.pc == Done(Allow) ==>
                  exists a :: a in states[i].accepted && a.token == h.req.token && a.token.sub == h.req.username)
  {
    RunKeepsInv(states, actions, i);
    assert HandlerOk(states[i], states[i].handlers[id]);
  }

  // ---------------------------------------------------------------- expiry

  /**
   Once the clock has reached every expiry ever verified for a user, each token-less answer given
   to that user from then on is a denial, until a CONNECT verifies a later one.
   */
  lemma ExpiredUsersAreDenied(states: seq<State>, actions: seq<Action>, i: nat, id: nat, limit: int)
    requires Run(states, actions) && i < |states| && id in states[i].handlers
    requires states[i].handlers[id].Asking? && states[i].handlers[id].askPc.Answered?
    requires limit <= states[i].handlers[id].askPc.at
    requires forall a | a in states[i].accepted && a.token.sub == states[i].handlers[id].ask.username ::
        a.token.exp <= limit
    ensures states[i].handlers[id].askPc.answer != Allow
  {
    if states[i].handlers[id].askPc.answer == Allow {
      var j, session, writer := EveryTokenlessAllowIsBacked(states, actions, i, id);
    }
  }

  /** A token accepted only through the leeway caches a session that no later request can use. */
  lemma LeewaySessionsGrantNothing(s: State, a: Acceptance, u: string, session: Session, ask: Ask, now: int)
    requires Inv(s) && a in s.accepted && a.token.exp <= a.at && Backs(a, u, session) && s.now <= now
    ensures Answer(ask, Some(session), now) != Allow
  {
  }

  // ---------------------------------------------------------------- isolation

  /** Every slug any version of the tenant map ever gave passes the slug validator. */
  ghost predicate SlugsValid(history: seq<FileVersion>) {
    forall tenantId, slug :: Served(history, tenantId, slug) ==> Naming.ValidSlug(slug)
  }

  lemma AllowedTopicIsInside(states: seq<State>, actions: seq<Action>, i: nat, id: nat, key: string)
    returns (slug: string)
    requires Run(states, actions) && i < |states| && SlugsValid(states[i].cache.history)
    requires id in states[i].handlers
    requires var h := states[i].handlers[id];
             h.Asking? && h.ask.AskTopic? && h.askPc.Answered? && h.askPc.answer == Allow
             && Topic.AmqpMatches(h.ask.routingKey, key)
    ensures Topic.InNamespace(slug, states[i].handlers[id].ask.username, key)
  {
    var j, session, writer := EveryTokenlessAllowIsBacked(states, actions, i, id);
    var s, h := states[i], states[i].handlers[id];
    slug := session.tenantSlug;
    Naming.SlugsCarryNoSeparator(slug);
    Uuid.UuidsArePlain(h.ask.username);
    Topic.OwnedPatternStaysInside(slug, h.ask.username, h.ask.routingKey, key);
  }

  /**
   Two topic checks that were both allowed, in one run, for patterns sharing even one key belong to
   one account: no interleaving lets a device reach another's namespace.
   */
  lemma AllowedTopicsNeverCross(states: seq<State>, actions: seq<Action>, i: nat, id1: nat, id2: nat, key: string)
    requires Run(states, actions) && i < |states| && SlugsValid(states[i].cache.history)
    requires id1 in states[i].handlers && id2 in states[i].handlers
    requires forall id | id in {id1, id2} ::
               var h := states[i].handlers[id];
               h.Asking? && h.ask.AskTopic? && h.askPc.Answered? && h.askPc.answer == Allow
               && Topic.AmqpMatches(h.ask.routingKey, key)
    ensures states[i].handlers[id1].ask.username == states[i].handlers[id2].ask.username
    ensures |Text.Split(key, '.')| >= 3 && Text.Split(key, '.')[2] == states[i].handlers[id1].ask.username
  {
    var slug1 := AllowedTopicIsInside(states, actions, i, id1, key);
    var slug2 := AllowedTopicIsInside(states, actions, i, id2, key);
    var words := Text.Split(key, '.');
    assert words[..3][2] == words[2];
  }
}
