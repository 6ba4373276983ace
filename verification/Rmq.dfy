/**
 The handlers of `services/device-twin/src/rmq.rs` as methods of the shared state, for a request that
 nothing interleaves with; `TwinAlone` says the same of the state machine.
 */
module Rmq {
  import opened Common
  import opened Decide
  import opened Tenants
  import opened Twin
  import TwinAlone

  class TwinState {
    const tenants: TenantRegistry
    const sessions: SessionCache

    constructor (tenants: TenantRegistry, sessions: SessionCache)
      ensures this.tenants == tenants && this.sessions == sessions
    {
      this.tenants := tenants;
      this.sessions := sessions;
    }

    /**
     CONNECT. `accepts` is the answer of the one verifier that is asked. The cache gains exactly the
     verified session, exactly when the answer is allow; a refused identity costs no tenant work.
     */
    method RmqUser(req: Connect, file: FileVersion, accepts: bool) returns (d: Decision)
      requires AllPinned(tenants.verifiers)
      modifies tenants, sessions
      ensures AllPinned(tenants.verifiers)
      ensures d == Allow <==>
        && req.token.tenantId.Some?
        && DecideUser(UserFacts(req.username, req.vhost, req.clientId,
                                if accepts then Some(req.token.sub) else None)) == Allow
        && Lookup(old(tenants.Holding()), req.token.tenantId.value, StatOf(file), LoadOf(file)).0.Some?
        && (req.token.tenantId.value in old(tenants.verifiers) || tenants.CanBuildFor(req.token.tenantId.value))
      ensures d == Allow ==>
        sessions.sessions == old(sessions.sessions)[req.username := Session(
          req.token.tenantId.value,
          Lookup(old(tenants.Holding()), req.token.tenantId.value, StatOf(file), LoadOf(file)).0.value,
          req.token.exp)]
      ensures d != Allow ==> sessions.sessions == old(sessions.sessions)
      ensures DecideUserIdentity(req.username, req.vhost, req.clientId) == Allow ==>
        (d == Deny(UnknownTenant) <==>
           !(&& req.token.tenantId.Some?
             && Lookup(old(tenants.Holding()), req.token.tenantId.value, StatOf(file), LoadOf(file)).0.Some?
             && (req.token.tenantId.value in old(tenants.verifiers)
                 || tenants.CanBuildFor(req.token.tenantId.value))))
      ensures d == Allow || d == Deny(UnknownTenant) ||
        d == DecideUser(UserFacts(req.username, req.vhost, req.clientId, if accepts then Some(req.token.sub) else None))
      ensures DecideUserIdentity(req.username, req.vhost, req.clientId) != Allow ==>
        d == DecideUserIdentity(req.username, req.vhost, req.clientId) && tenants.verifiers == old(tenants.verifiers)
        && tenants.Holding() == old(tenants.Holding())
    {
      var identity := DecideUserIdentity(req.username, req.vhost, req.clientId);
      if identity != Allow {
        return identity;
      }
      if req.token.tenantId.None? {
        return Deny(UnknownTenant);
      }
      var tenantId := req.token.tenantId.value;
      TwinAlone.LookupIsStable(tenants.Holding(), tenantId, file);
      var known := tenants.Knows(tenantId, StatOf(file), LoadOf(file));
      if !known {
        return Deny(UnknownTenant);
      }
      var verifier := tenants.VerifierFor(tenantId, StatOf(file), LoadOf(file));
      if verifier.Err? {
        return Deny(UnknownTenant);
      }
      if !accepts {
        return Deny(TokenDidNotVerify);
      }
      d := DecideUserSubject(req.username, Some(req.token.sub));
      if d == Allow {
        var slug := tenants.Slug(tenantId, StatOf(file), LoadOf(file));
        if slug.None? {
          return Deny(UnknownTenant);
        }
        sessions.Insert(req.username, Session(tenantId, slug.value, req.token.exp));
      }
    }

    /** The three token-less endpoints: one cache read, one clock read, one decision. */
    method RmqTokenless(ask: Ask, now: int) returns (d: Decision)
      ensures d == Allow <==>
        && ask.username in sessions.sessions
        && now < sessions.sessions[ask.username].exp
        && Admissible(ask, sessions.sessions[ask.username].tenantSlug)
      ensures d ==
        Answer(ask, if ask.username in sessions.sessions then Some(sessions.sessions[ask.username]) else None, now)
    {
      var session := sessions.Get(ask.username);
      d := Answer(ask, session, now);
      TokenlessAllowExactly(ask, session, now);
    }
  }
}
