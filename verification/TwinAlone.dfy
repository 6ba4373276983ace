/**
 The state machine of `Twin` with one request running alone: what its steps, one after the other with
 nothing in between, come to (`services/device-twin/src/rmq.rs`, `tenants.rs`).
 */
module TwinAlone {
  import opened Common
  import opened Decide
  import opened Tenants
  import opened Twin
  import Uuid

  /** A lookup that found something finds the same thing again while the file stands still. */
  lemma LookupIsStable(held: Held, tenantId: string, file: FileVersion)
    ensures var (slug, after) := Lookup(held, tenantId, StatOf(file), LoadOf(file));
            slug.Some? ==> Lookup(after, tenantId, StatOf(file), LoadOf(file)) == (slug, after)
  {
  }

  // ---------------------------------------------------------------- one lookup

  function Remaining(step: SlugPc): nat {
    match step
    case ReadMap => 5
    case Stat => 4
    case Compare(_) => 3
    case Load(_) => 2
    case WriteMap(_, _) => 1
    case WriteSeen(_, _) => 0
  }

  /** The machine's lookup steps, one after the other with nothing in between. */
  function SoloSlug(c: Cache, tenantId: string, step: SlugPc): (Cache, Option<string>)
    requires c.history != [] && SlugPcInRange(step, |c.history|)
    decreases Remaining(step)
  {
    var after := SlugEffect(c, step);
    match SlugStep(c, tenantId, step)
    case Return(slug) => (after, slug)
    case Goto(next) => SoloSlug(after, tenantId, next)
  }

  /** Undisturbed, the six interleavable steps are the sequential lookup of the registry. */
  lemma SoloSlugIsLookup(c: Cache, tenantId: string)
    requires c.history != []
    ensures var (after, slug) := SoloSlug(c, tenantId, ReadMap);
            var newest := c.history[c.Newest()];
            (slug, after.held) == Lookup(c.held, tenantId, StatOf(newest), LoadOf(newest))
  {
    if tenantId !in c.held.slugs {
      var n := c.Newest();
      assert SoloSlug(c, tenantId, ReadMap) == SoloSlug(c, tenantId, Compare(n));
      if c.held.readAt != StatOf(c.history[n]) {
        assert SoloSlug(c, tenantId, Compare(n)) == SoloSlug(c, tenantId, WriteMap(n, n));
        var written := SlugEffect(c, WriteMap(n, n));
        assert SoloSlug(c, tenantId, WriteMap(n, n)) == SoloSlug(written, tenantId, WriteSeen(n, n));
        assert SoloSlug(written, tenantId, WriteSeen(n, n)).0 == SlugEffect(written, WriteSeen(n, n));
      }
    }
  }

  /** What is published just before each step, by the steps still to come after it. */
  type News = nat -> seq<FileVersion>

  /** The lookup's steps with versions of the file published in between. */
  function SlugAmid(c: Cache, tenantId: string, step: SlugPc, news: News): (Cache, Option<string>)
    requires c.history != [] && SlugPcInRange(step, |c.history|)
    decreases Remaining(step)
  {
    var now := c.(history := c.history + news(Remaining(step)));
    var after := SlugEffect(now, step);
    match SlugStep(now, tenantId, step)
    case Return(slug) => (after, slug)
    case Goto(next) => SlugAmid(after, tenantId, next, news)
  }

  function Latest(history: seq<FileVersion>): FileVersion
    requires history != []
  {
    history[|history| - 1]
  }

  /** From the reading of the file on: what is written is what was read, with the time that was statted. */
  lemma ReadAmid(c: Cache, tenantId: string, at: nat, news: News)
    requires c.history != [] && at < |c.history|
    ensures var (after, slug) := SlugAmid(c, tenantId, Load(at), news);
            var read := LoadOf(Latest(c.history + news(2)));
            slug == Find(read, tenantId) && after.held == Held(read, StatOf(c.history[at]))
  {
    var loaded := c.(history := c.history + news(2));
    var ver := loaded.Newest();
    assert SlugAmid(c, tenantId, Load(at), news) == SlugAmid(loaded, tenantId, WriteMap(at, ver), news);
    var before := loaded.(history := loaded.history + news(1));
    var written := SlugEffect(before, WriteMap(at, ver));
    assert SlugAmid(loaded, tenantId, WriteMap(at, ver), news) ==
           SlugAmid(written, tenantId, WriteSeen(at, ver), news);
    var last := written.(history := written.history + news(0));
    assert SlugAmid(written, tenantId, WriteSeen(at, ver), news).0 == SlugEffect(last, WriteSeen(at, ver));
  }

  /**
   Whatever is published in between, a lookup that no other interleaves with is the sequential one of the
   version it statted and the version it read; the recorded time is the statted version's, so that a
   version published between the two is looked for again.
   */
  lemma SlugAmidIsLookup(c: Cache, tenantId: string, news: News)
    requires c.history != []
    ensures var (after, slug) := SlugAmid(c, tenantId, ReadMap, news);
            var statted := c.history + news(5) + news(4);
            var read := statted + news(3) + news(2);
            (slug, after.held) == Lookup(c.held, tenantId, StatOf(Latest(statted)), LoadOf(Latest(read)))
  {
    if tenantId !in c.held.slugs {
      var arrived := c.(history := c.history + news(5));
      assert SlugAmid(c, tenantId, ReadMap, news) == SlugAmid(arrived, tenantId, Stat, news);
      var seen := arrived.(history := arrived.history + news(4));
      var at := seen.Newest();
      assert SlugAmid(arrived, tenantId, Stat, news) == SlugAmid(seen, tenantId, Compare(at), news);
      var compared := seen.(history := seen.history + news(3));
      if c.held.readAt != StatOf(Latest(seen.history)) {
        assert SlugAmid(seen, tenantId, Compare(at), news) == SlugAmid(compared, tenantId, Load(at), news);
        ReadAmid(compared, tenantId, at, news);
      }
    }
  }

  lemma {:induction false} SoloSlugKeepsFile(c: Cache, tenantId: string, step: SlugPc)
    requires c.history != [] && SlugPcInRange(step, |c.history|)
    ensures SoloSlug(c, tenantId, step).0.history == c.history
    decreases Remaining(step)
  {
    match SlugStep(c, tenantId, step)
    case Return(_) =>
    case Goto(next) => SoloSlugKeepsFile(SlugEffect(c, step), tenantId, next);
  }

  // ---------------------------------------------------------------- one CONNECT

  /** How the two steps that can fail turn out: building a verifier, and the verifier's answer. */
  datatype Turns = Turns(builds: bool, accepts: bool)

  function Choice(h: Handler, turns: Turns): bool
    requires h.Connecting?
  {
    if h.pc.Verify? then turns.accepts else turns.builds
  }

  function Rank(pc: ConnectPc): nat {
    match pc
    case Identity => 30
    case Peek => 29
    case Slug(step, Knows) => 22 + Remaining(step)
    case Slug(step, ForVerifier) => 15 + Remaining(step)
    case ReadVerifiers => 14
    case WriteVerifier(_) => 13
    case Verify(_) => 12
    case Subject => 11
    case Slug(step, ForSession) => 5 + Remaining(step)
    case Insert(_) => 1
    case Done(_) => 0
  }

  lemma StepGoesOn(s: State, h: Handler, succeeds: bool)
    requires h.Connecting? && WellFormed(s, h)
    ensures var (t, h') := ConnectStep(s, h, succeeds);
            && h'.Connecting? && WellFormed(t, h') && (!h.pc.Done? ==> Rank(h'.pc) < Rank(h.pc))
            && h'.req == h.req && t.now == s.now && t.cache.history == s.cache.history
  {
  }

  /** The machine's own steps of this handler, run to the end. */
  function Ends(s: State, h: Handler, turns: Turns): (State, Handler)
    requires h.Connecting? && WellFormed(s, h)
    decreases Rank(h.pc)
  {
    if h.pc.Done? then (s, h)
    else
      StepGoesOn(s, h, Choice(h, turns));
      var (t, h') := ConnectStep(s, h, Choice(h, turns));
      Ends(t, h', turns)
  }

  lemma {:induction false} LookupEnds(s: State, h: Handler, turns: Turns, step: SlugPc, purpose: Purpose)
    requires h.Connecting? && WellFormed(s, h) && h.pc == Slug(step, purpose)
    ensures var (cache, slug) := SoloSlug(s.cache, h.req.token.tenantId.value, step);
            var t, h' := s.(cache := cache), AfterLookup(h, purpose, slug);
            WellFormed(t, h') && Ends(s, h, turns) == Ends(t, h', turns)
    decreases Remaining(step)
  {
    StepGoesOn(s, h, Choice(h, turns));
    match SlugStep(s.cache, h.req.token.tenantId.value, step)
    case Return(_) =>
    case Goto(next) =>
      LookupEnds(s.(cache := SlugEffect(s.cache, step)), h.(pc := Slug(next, purpose)), turns, next, purpose);
  }

  /** The file as it stands, and what the sequential lookup makes of it. */
  function Found(c: Cache, tenantId: string): (Option<string>, Held)
    requires c.history != []
  {
    var newest := c.history[c.Newest()];
    Lookup(c.held, tenantId, StatOf(newest), LoadOf(newest))
  }

  /** A whole lookup: it finds what the sequential one finds, leaves what that leaves, and would find it again. */
  lemma WholeLookupEnds(s: State, h: Handler, turns: Turns, purpose: Purpose) returns (cache: Cache)
    requires h.Connecting? && WellFormed(s, h) && h.pc == Slug(ReadMap, purpose)
    ensures var (slug, held) := Found(s.cache, h.req.token.tenantId.value);
            var t, h' := s.(cache := cache), AfterLookup(h, purpose, slug);
            && cache.held == held && cache.history == s.cache.history
            && (slug.Some? ==> Found(cache, h.req.token.tenantId.value) == (slug, held))
            && WellFormed(t, h') && Ends(s, h, turns) == Ends(t, h', turns)
  {
    var tenantId := h.req.token.tenantId.value;
    cache := SoloSlug(s.cache, tenantId, ReadMap).0;
    LookupEnds(s, h, turns, ReadMap, purpose);
    SoloSlugIsLookup(s.cache, tenantId);
    SoloSlugKeepsFile(s.cache, tenantId, ReadMap);
    LookupIsStable(s.cache.held, tenantId, s.cache.history[s.cache.Newest()]);
  }

  // ---------------------------------------------------------------- its phases

  /** The tenant is served and has, or can be given, a verifier. */
  predicate Ready(s: State, token: Token, builds: bool)
    requires s.cache.history != []
  {
    && token.tenantId.Some? && Found(s.cache, token.tenantId.value).0.Some?
    && (token.tenantId.value in s.verifiers || (Uuid.Parse(token.tenantId.value).Some? && builds))
  }

  /** What a CONNECT that runs alone is told. */
  function Told(s: State, req: Connect, turns: Turns): Decision
    requires s.cache.history != []
  {
    var identity := DecideUserIdentity(req.username, req.vhost, req.clientId);
    if identity != Allow then identity
    else if !Ready(s, req.token, turns.builds) then Deny(UnknownTenant)
    else if !turns.accepts then Deny(TokenDidNotVerify)
    else DecideUserSubject(req.username, Some(req.token.sub))
  }

  /** The cache of sessions afterwards. */
  function Left(s: State, req: Connect, turns: Turns): map<string, Session>
    requires s.cache.history != []
  {
    if Told(s, req, turns) == Allow && Ready(s, req.token, turns.builds) then
      var tenantId := req.token.tenantId.value;
      s.sessions[req.username := Session(tenantId, Found(s.cache, tenantId).0.value, req.token.exp)]
    else s.sessions
  }

  lemma NothingLeft(s: State, h: Handler, turns: Turns)
    requires h.Connecting? && WellFormed(s, h) && h.pc.Done?
    ensures Ends(s, h, turns) == (s, h)
  {
  }

  /** One step of what is left to do. */
  lemma OneStep(s: State, h: Handler, turns: Turns, t: State, h': Handler)
    requires h.Connecting? && WellFormed(s, h) && !h.pc.Done? && (t, h') == ConnectStep(s, h, Choice(h, turns))
    ensures h'.Connecting? && WellFormed(t, h') && Ends(s, h, turns) == Ends(t, h', turns)
  {
    StepGoesOn(s, h, Choice(h, turns));
  }

  lemma InsertEnds(s: State, h: Handler, turns: Turns)
    requires h.Connecting? && WellFormed(s, h) && h.pc.Insert?
    ensures var (t, h') := Ends(s, h, turns);
            && h'.Connecting? && h'.pc == Done(Allow) && t.cache == s.cache && t.verifiers == s.verifiers
            && t.sessions ==
               s.sessions[h.req.username := Session(h.req.token.tenantId.value, h.pc.slug, h.req.token.exp)]
  {
    var (t, h') := ConnectStep(s, h, Choice(h, turns));
    OneStep(s, h, turns, t, h');
    NothingLeft(t, h', turns);
  }

  /** The last lookup and the entry it leaves. */
  lemma SessionEnds(s: State, h: Handler, turns: Turns)
    requires h.Connecting? && WellFormed(s, h) && h.pc == Slug(ReadMap, ForSession)
    requires Found(s.cache, h.req.token.tenantId.value).0.Some?
    ensures var tenantId := h.req.token.tenantId.value;
            var (t, h') := Ends(s, h, turns);
            && h'.Connecting? && h'.pc == Done(Allow)
            && t.cache.held == Found(s.cache, tenantId).1 && t.verifiers == s.verifiers
            && t.sessions ==
               s.sessions[h.req.username := Session(tenantId, Found(s.cache, tenantId).0.value, h.req.token.exp)]
  {
    var cache := WholeLookupEnds(s, h, turns, ForSession);
    var slug := Found(s.cache, h.req.token.tenantId.value).0;
    InsertEnds(s.(cache := cache), AfterLookup(h, ForSession, slug), turns);
  }

  function Entered(s: State, req: Connect): map<string, Session>
    requires s.cache.history != [] && req.token.tenantId.Some? && Found(s.cache, req.token.tenantId.value).0.Some?
  {
    var tenantId := req.token.tenantId.value;
    s.sessions[req.username := Session(tenantId, Found(s.cache, tenantId).0.value, req.token.exp)]
  }

  /** From the comparison of the verified subject on. */
  lemma SubjectEnds(s: State, h: Handler, turns: Turns)
    requires h.Connecting? && WellFormed(s, h) && h.pc.Subject?
    requires Found(s.cache, h.req.token.tenantId.value).0.Some?
    ensures var subject, (t, h') := DecideUserSubject(h.req.username, Some(h.req.token.sub)), Ends(s, h, turns);
            && h'.Connecting? && h'.pc == Done(subject)
            && t.sessions == (if subject == Allow then Entered(s, h.req) else s.sessions)
            && t.cache.held == (if subject == Allow then Found(s.cache, h.req.token.tenantId.value).1 else s.cache.held)
            && t.verifiers == s.verifiers
  {
    var (t, h') := ConnectStep(s, h, Choice(h, turns));
    OneStep(s, h, turns, t, h');
    if DecideUserSubject(h.req.username, Some(h.req.token.sub)) == Allow {
      SessionEnds(t, h', turns);
    } else {
      NothingLeft(t, h', turns);
    }
  }

  /** From the verifier's answer on. */
  lemma VerifyEnds(s: State, h: Handler, turns: Turns)
    requires h.Connecting? && WellFormed(s, h) && h.pc.Verify?
    requires Found(s.cache, h.req.token.tenantId.value).0.Some?
    ensures var subject, (t, h') := DecideUserSubject(h.req.username, Some(h.req.token.sub)), Ends(s, h, turns);
            && h'.Connecting?
            && h'.pc == Done(if turns.accepts then subject else Deny(TokenDidNotVerify))
            && t.sessions == (if turns.accepts && subject == Allow then Entered(s, h.req) else s.sessions)
            && (t.cache.held == s.cache.held || t.cache.held == Found(s.cache, h.req.token.tenantId.value).1)
            && t.verifiers == s.verifiers
  {
    var (t, h') := ConnectStep(s, h, Choice(h, turns));
    OneStep(s, h, turns, t, h');
    if turns.accepts {
      SubjectEnds(t, h', turns);
    } else {
      NothingLeft(t, h', turns);
    }
  }

  /** The verifiers afterwards: one more if it had to be built and was. */
  function Verifiers(s: State, req: Connect, builds: bool): map<string, Verifier>
    requires s.cache.history != []
  {
    if DecideUserIdentity(req.username, req.vhost, req.clientId) == Allow && Ready(s, req.token, builds)
       && req.token.tenantId.value !in s.verifiers
    then s.verifiers[req.token.tenantId.value := Verifier(Uuid.Parse(req.token.tenantId.value).value, M2M_AUDIENCE)]
    else s.verifiers
  }

  /** From the search for a verifier on; the tenant is served. */
  lemma VerifierEnds(s: State, h: Handler, turns: Turns)
    requires h.Connecting? && WellFormed(s, h) && h.pc.ReadVerifiers?
    requires Found(s.cache, h.req.token.tenantId.value).0.Some?
    requires DecideUserIdentity(h.req.username, h.req.vhost, h.req.clientId) == Allow
    ensures var (t, h') := Ends(s, h, turns);
            && h'.Connecting? && h'.pc == Done(Told(s, h.req, turns)) && t.sessions == Left(s, h.req, turns)
            && (t.cache.held == s.cache.held || t.cache.held == Found(s.cache, h.req.token.tenantId.value).1)
            && t.verifiers == Verifiers(s, h.req, turns.builds)
  {
    var (t, h') := ConnectStep(s, h, Choice(h, turns));
    OneStep(s, h, turns, t, h');
    if h'.pc.Verify? {
      VerifyEnds(t, h', turns);
    } else if h'.pc.Done? {
      NothingLeft(t, h', turns);
    } else {
      var (u, h'') := ConnectStep(t, h', Choice(h', turns));
      OneStep(t, h', turns, u, h'');
      VerifyEnds(u, h'', turns);
    }
  }

  /** The first two lookups, and on. */
  lemma TenantEnds(s: State, h: Handler, turns: Turns)
    requires h.Connecting? && WellFormed(s, h) && h.pc == Slug(ReadMap, Knows)
    requires DecideUserIdentity(h.req.username, h.req.vhost, h.req.clientId) == Allow
    ensures var (t, h') := Ends(s, h, turns);
            && h'.Connecting? && h'.pc == Done(Told(s, h.req, turns)) && t.sessions == Left(s, h.req, turns)
            && t.cache.held == Found(s.cache, h.req.token.tenantId.value).1
            && t.verifiers == Verifiers(s, h.req, turns.builds)
  {
    var tenantId := h.req.token.tenantId.value;
    var slug := Found(s.cache, tenantId).0;
    var c1 := WholeLookupEnds(s, h, turns, Knows);
    var s1, h1 := s.(cache := c1), AfterLookup(h, Knows, slug);
    if slug.None? {
      NothingLeft(s1, h1, turns);
    } else {
      var c2 := WholeLookupEnds(s1, h1, turns, ForVerifier);
      VerifierEnds(s1.(cache := c2), AfterLookup(h1, ForVerifier, slug), turns);
    }
  }

  /** What the registry then holds: a refused identity costs no lookup. */
  function HeldAfter(s: State, req: Connect): Held
    requires s.cache.history != []
  {
    if DecideUserIdentity(req.username, req.vhost, req.clientId) == Allow && req.token.tenantId.Some?
    then Found(s.cache, req.token.tenantId.value).1 else s.cache.held
  }

  /** A whole CONNECT, from its first step to its answer. */
  lemma ConnectEnds(s: State, h: Handler, turns: Turns)
    requires h.Connecting? && IsNew(h) && s.cache.history != []
    ensures WellFormed(s, h)
    ensures var (t, h') := Ends(s, h, turns);
            && h'.Connecting? && h'.pc == Done(Told(s, h.req, turns)) && t.sessions == Left(s, h.req, turns)
            && t.cache.held == HeldAfter(s, h.req) && t.verifiers == Verifiers(s, h.req, turns.builds)
  {
    var (t, h1) := ConnectStep(s, h, Choice(h, turns));
    OneStep(s, h, turns, t, h1);
    if h1.pc.Done? {
      NothingLeft(t, h1, turns);
    } else {
      var (u, h2) := ConnectStep(t, h1, Choice(h1, turns));
      OneStep(t, h1, turns, u, h2);
      if h2.pc.Done? {
        NothingLeft(u, h2, turns);
      } else {
        TenantEnds(u, h2, turns);
      }
    }
  }

  // ---------------------------------------------------------------- alone in a run

  lemma StepIgnoresHandlers(s: State, h: Handler, succeeds: bool, hs: map<nat, Handler>)
    requires h.Connecting? && WellFormed(s, h)
    ensures var u := s.(handlers := hs);
            var (t, h') := ConnectStep(s, h, succeeds);
            WellFormed(u, h) && ConnectStep(u, h, succeeds) == (t.(handlers := hs), h') && t.handlers == s.handlers
  {
  }

  lemma {:induction false} EndsIgnoreHandlers(s: State, h: Handler, turns: Turns, hs: map<nat, Handler>)
    requires h.Connecting? && WellFormed(s, h)
    ensures var u := s.(handlers := hs);
            WellFormed(u, h) && Ends(u, h, turns) == (Ends(s, h, turns).0.(handlers := hs), Ends(s, h, turns).1)
    decreases Rank(h.pc)
  {
    var u := s.(handlers := hs);
    if h.pc.Done? {
      NothingLeft(s, h, turns);
      NothingLeft(u, h, turns);
    } else {
      var (t, h') := ConnectStep(s, h, Choice(h, turns));
      StepGoesOn(s, h, Choice(h, turns));
      StepIgnoresHandlers(s, h, Choice(h, turns), hs);
      OneStep(s, h, turns, t, h');
      OneStep(u, h, turns, t.(handlers := hs), h');
      EndsIgnoreHandlers(t, h', turns, hs);
    }
  }

  /** From state `i` to state `j` of a run nothing happens but the steps of CONNECT `id`. */
  ghost predicate Alone(states: seq<State>, actions: seq<Action>, i: nat, j: nat, id: nat, turns: Turns) {
    && Run(states, actions) && i <= j < |states| && id in states[i].handlers && states[i].handlers[id].Connecting?
    && forall k | i <= k < j ::
        && id in states[k].handlers && states[k].handlers[id].Connecting? && !states[k].handlers[id].pc.Done?
        && actions[k] == Step(id, Choice(states[k].handlers[id], turns))
  }

  /** What a handler comes to if it goes on alone. */
  datatype Outcome = Outcome(
    handler: Handler, sessions: map<string, Session>, held: Held, verifiers: map<string, Verifier>)

  function OutcomeOf(s: State, h: Handler, turns: Turns): Outcome
    requires h.Connecting? && WellFormed(s, h)
  {
    var (t, h') := Ends(s, h, turns);
    Outcome(h', t.sessions, t.cache.held, t.verifiers)
  }

  lemma AloneOnce(s: State, id: nat, turns: Turns, t: State)
    requires id in s.handlers && s.handlers[id].Connecting? && WellFormed(s, s.handlers[id]) && !s.handlers[id].pc.Done?
    requires t == Apply(s, Step(id, Choice(s.handlers[id], turns)))
    ensures id in t.handlers && t.handlers[id].Connecting? && WellFormed(t, t.handlers[id])
    ensures t.handlers[id].req == s.handlers[id].req && t.now == s.now
    ensures Rank(t.handlers[id].pc) < Rank(s.handlers[id].pc)
    ensures OutcomeOf(t, t.handlers[id], turns) == OutcomeOf(s, s.handlers[id], turns)
  {
    var h := s.handlers[id];
    var (u, h') := ConnectStep(s, h, Choice(h, turns));
    StepGoesOn(s, h, Choice(h, turns));
    OneStep(s, h, turns, u, h');
    StepIgnoresHandlers(s, h, Choice(h, turns), t.handlers);
    EndsIgnoreHandlers(u, h', turns, t.handlers);
    assert t == u.(handlers := t.handlers);
  }

  lemma {:induction false} AloneKeepsOutcome(states: seq<State>, actions: seq<Action>, i: nat, j: nat, id: nat,
                                             turns: Turns)
    requires Alone(states, actions, i, j, id, turns) && WellFormed(states[i], states[i].handlers[id])
    ensures id in states[j].handlers && states[j].handlers[id].Connecting?
    ensures WellFormed(states[j], states[j].handlers[id]) && states[j].handlers[id].req == states[i].handlers[id].req
    ensures OutcomeOf(states[j], states[j].handlers[id], turns) == OutcomeOf(states[i], states[i].handlers[id], turns)
    decreases j
  {
    if j > i {
      AloneKeepsOutcome(states, actions, i, j - 1, id, turns);
      AloneOnce(states[j - 1], id, turns, states[j]);
    }
  }

  /** The answer and the sessions of a CONNECT that ran alone, in the terms of the request and the state it found. */
  ghost predicate Answered(s: State, req: Connect, turns: Turns, d: Decision, sessions: map<string, Session>)
    requires s.cache.history != []
  {
    var newest := s.cache.history[|s.cache.history| - 1];
    && (d == Allow <==>
          && req.token.tenantId.Some?
          && DecideUser(UserFacts(req.username, req.vhost, req.clientId,
                                  if turns.accepts then Some(req.token.sub) else None)) == Allow
          && Lookup(s.cache.held, req.token.tenantId.value, StatOf(newest), LoadOf(newest)).0.Some?
          && (req.token.tenantId.value in s.verifiers
              || (Uuid.Parse(req.token.tenantId.value).Some? && turns.builds)))
    && (d == Allow ==>
          sessions == s.sessions[req.username := Session(
            req.token.tenantId.value,
            Lookup(s.cache.held, req.token.tenantId.value, StatOf(newest), LoadOf(newest)).0.value,
            req.token.exp)])
    && (d != Allow ==> sessions == s.sessions)
  }

  lemma ToldIsAnswered(s: State, req: Connect, turns: Turns)
    requires s.cache.history != []
    ensures Answered(s, req, turns, Told(s, req, turns), Left(s, req, turns))
  {
  }

  lemma DoneAlone(states: seq<State>, actions: seq<Action>, i: nat, j: nat, id: nat, turns: Turns)
    requires Alone(states, actions, i, j, id, turns) && IsNew(states[i].handlers[id])
    requires id in states[j].handlers && states[j].handlers[id].Connecting? && states[j].handlers[id].pc.Done?
    ensures states[i].cache.history != []
    ensures var s, t, req := states[i], states[j], states[i].handlers[id].req;
            && states[j].handlers[id].pc.decision == Told(s, req, turns) && t.sessions == Left(s, req, turns)
            && t.cache.held == HeldAfter(s, req) && t.verifiers == Verifiers(s, req, turns.builds)
  {
    RunKeepsInv(states, actions, i);
    ConnectEnds(states[i], states[i].handlers[id], turns);
    AloneKeepsOutcome(states, actions, i, j, id, turns);
    NothingLeft(states[j], states[j].handlers[id], turns);
  }

  /**
   From every reachable state, a CONNECT whose steps run with nothing in between is allowed exactly on
   the identity chain, a served tenant, a verifier at hand or to be built, and its acceptance; it is told
   the first of these that is missing; and the sessions, the held map and the verifiers are left as the
   undisturbed handler leaves them.
   */
  lemma ConnectAloneExactly(states: seq<State>, actions: seq<Action>, i: nat, j: nat, id: nat, turns: Turns)
    requires Alone(states, actions, i, j, id, turns) && IsNew(states[i].handlers[id])
    requires id in states[j].handlers && states[j].handlers[id].Connecting? && states[j].handlers[id].pc.Done?
    ensures states[i].cache.history != []
    ensures var s, t, req := states[i], states[j], states[i].handlers[id].req;
            var d := states[j].handlers[id].pc.decision;
            && Answered(s, req, turns, d, t.sessions)
            && d == Told(s, req, turns) && t.cache.held == HeldAfter(s, req)
            && t.verifiers == Verifiers(s, req, turns.builds)
  {
    DoneAlone(states, actions, i, j, id, turns);
    ToldIsAnswered(states[i], states[i].handlers[id].req, turns);
  }

  /** The tenant's verifier can accept this token now. */
  predicate MayAccept(req: Connect, now: int) {
    req.token.tenantId.Some? && Uuid.Parse(req.token.tenantId.value).Some? ==>
      Verifies(Verifier(Uuid.Parse(req.token.tenantId.value).value, M2M_AUDIENCE), req.token, now)
  }

  lemma StepIsEnabled(s: State, id: nat, turns: Turns)
    requires Inv(s) && id in s.handlers && s.handlers[id].Connecting?
    requires turns.accepts ==> MayAccept(s.handlers[id].req, s.now)
    ensures WellFormed(s, s.handlers[id]) && Enabled(s, Step(id, Choice(s.handlers[id], turns)))
  {
    assert HandlerOk(s, s.handlers[id]);
  }

  lemma RunLonger(states: seq<State>, actions: seq<Action>, a: Action, s: State)
    requires Run(states, actions) && s == states[|states| - 1] && Enabled(s, a)
    requires a.Step? ==> WellFormed(s, s.handlers[a.id])
    ensures Run(states + [Apply(s, a)], actions + [a])
  {
  }

  lemma AloneLonger(states: seq<State>, actions: seq<Action>, i: nat, id: nat, turns: Turns, t: State)
    requires states != [] && Alone(states, actions, i, |states| - 1, id, turns)
    requires var s := states[|states| - 1];
             && Inv(s) && id in s.handlers && s.handlers[id].Connecting? && !s.handlers[id].pc.Done?
             && (turns.accepts ==> MayAccept(s.handlers[id].req, s.now))
             && WellFormed(s, s.handlers[id]) && t == Apply(s, Step(id, Choice(s.handlers[id], turns)))
    ensures Alone(states + [t], actions + [Step(id, Choice(states[|states| - 1].handlers[id], turns))], i, |states|, id,
                  turns)
  {
    var s := states[|states| - 1];
    StepIsEnabled(s, id, turns);
    RunLonger(states, actions, Step(id, Choice(s.handlers[id], turns)), s);
  }

  /** The request is at this rank, and its token can still be accepted if it is to be. */
  ghost predicate Going(s: State, id: nat, turns: Turns, rank: nat) {
    && id in s.handlers && s.handlers[id].Connecting? && rank == Rank(s.handlers[id].pc)
    && (turns.accepts ==> MayAccept(s.handlers[id].req, s.now))
  }

  lemma OneMoreAlone(states: seq<State>, actions: seq<Action>, i: nat, id: nat, turns: Turns, rank: nat)
    returns (t: State, a: Action, lower: nat)
    requires states != [] && Alone(states, actions, i, |states| - 1, id, turns)
    requires Going(states[|states| - 1], id, turns, rank) && !states[|states| - 1].handlers[id].pc.Done?
    ensures Alone(states + [t], actions + [a], i, |states|, id, turns) && lower < rank && Going(t, id, turns, lower)
  {
    var s := states[|states| - 1];
    RunKeepsInv(states, actions, |states| - 1);
    assert HandlerOk(s, s.handlers[id]);
    a := Step(id, Choice(s.handlers[id], turns));
    t := Apply(s, a);
    AloneOnce(s, id, turns, t);
    AloneLonger(states, actions, i, id, turns, t);
    lower := Rank(t.handlers[id].pc);
  }

  /** And it can run so: from every reachable state, to its answer. */
  lemma {:induction false} ConnectCanRunAlone(states: seq<State>, actions: seq<Action>, i: nat, id: nat, turns: Turns,
                                              rank: nat)
    returns (all: seq<State>, acts: seq<Action>)
    requires states != [] && Alone(states, actions, i, |states| - 1, id, turns)
    requires Going(states[|states| - 1], id, turns, rank)
    ensures |all| > 0 && Alone(all, acts, i, |all| - 1, id, turns) && all[..i + 1] == states[..i + 1]
    ensures var last := all[|all| - 1];
            id in last.handlers && last.handlers[id].Connecting? && last.handlers[id].pc.Done?
    decreases rank
  {
    all, acts := states, actions;
    if !states[|states| - 1].handlers[id].pc.Done? {
      var t, a, lower := OneMoreAlone(states, actions, i, id, turns, rank);
      all, acts := ConnectCanRunAlone(states + [t], actions + [a], i, id, turns, lower);
      assert (states + [t])[..i + 1] == states[..i + 1];
    }
  }

  // ---------------------------------------------------------------- a token-less request alone

  /**
   From every reachable state, a token-less request whose two steps run with nothing in between is
   allowed exactly with an entry of that user, unexpired now, and an admissible question.
   */
  lemma AskAloneExactly(states: seq<State>, actions: seq<Action>, i: nat, id: nat, first: bool, second: bool)
    requires Run(states, actions) && i + 2 < |states| && id in states[i].handlers
    requires states[i].handlers[id].Asking? && IsNew(states[i].handlers[id])
    requires actions[i] == Step(id, first) && actions[i + 1] == Step(id, second)
    ensures id in states[i + 2].handlers
    ensures var s, h := states[i], states[i + 2].handlers[id];
            && h.Asking? && h.ask == s.handlers[id].ask && h.askPc.Answered? && h.askPc.at == s.now
            && (h.askPc.answer == Allow <==>
                  && h.ask.username in s.sessions && s.now < s.sessions[h.ask.username].exp
                  && Admissible(h.ask, s.sessions[h.ask.username].tenantSlug))
  {
    var s := states[i];
    var ask := s.handlers[id].ask;
    var session := if ask.username in s.sessions then Some(s.sessions[ask.username]) else None;
    TokenlessAllowExactly(ask, session, s.now);
  }
}
