/**
 The four authorization decisions (`services/device-twin/src/rmq/decide.rs`). Every fact is a
 parameter: the clock, the cached session and the outcome of token verification.
 */
module Decide {
  import opened Common
  import Topic
  import Uuid

  const DOMO_VHOST := "domo"
  const CN_MARKER := "CN="
  const SHARED_TOPIC_EXCHANGE := "amq.topic"

  datatype DenyReason =
    | VhostNotDomo
    | UsernameNotAServiceAccount
    | ClientIdMissing
    | ClientIdNotBoundToUsername
    | TokenDidNotVerify
    | TokenSubjectMismatch
    | NoSession
    | SessionExpired
    | UnknownTenant
    | ResourceNotOwned
    | RoutingKeyOutsideNamespace

  datatype Decision = Allow | Deny(reason: DenyReason)

  datatype Session = Session(tenantId: string, tenantSlug: string, exp: int) {
    predicate IsLive(now: int) { now < exp }
  }

  function ExpectedClientId(username: string): string { CN_MARKER + username }

  function ClientIdBinding(username: string, clientId: Option<string>): Option<DenyReason> {
    if clientId.Some? && clientId.value != ExpectedClientId(username)
    then Some(ClientIdNotBoundToUsername) else None
  }

  function LiveSession(session: Option<Session>, now: int): Result<Session, DenyReason> {
    match session
    case None => Err(NoSession)
    case Some(s) => if !s.IsLive(now) then Err(SessionExpired) else Ok(s)
  }

  predicate IsServiceAccountId(username: string) {
    ':' !in username && Uuid.Parse(username).Some?
  }

  datatype UserFacts = UserFacts(username: string, vhost: Option<string>, clientId: Option<string>,
                                 tokenSub: Option<string>)

  function DecideUserIdentity(username: string, vhost: Option<string>, clientId: Option<string>): Decision {
    if vhost.Some? && vhost.value != DOMO_VHOST then Deny(VhostNotDomo)
    else if !IsServiceAccountId(username) then Deny(UsernameNotAServiceAccount)
    else
      match clientId
      case Some(cid) => if cid == ExpectedClientId(username) then Allow else Deny(ClientIdNotBoundToUsername)
      case None => Deny(ClientIdMissing)
  }

  function DecideUserSubject(username: string, tokenSub: Option<string>): Decision {
    match tokenSub
    case Some(sub) => if sub == username then Allow else Deny(TokenSubjectMismatch)
    case None => Deny(TokenDidNotVerify)
  }

  /**
   The three-hop identity chain: an allow means the certificate-derived client id, the user name
   and the verified subject are one account, and the virtual host, if named, is ours.
   */
  function DecideUser(f: UserFacts): (d: Decision)
    ensures d == Allow <==>
      && (f.vhost.Some? ==> f.vhost.value == DOMO_VHOST)
      && IsServiceAccountId(f.username)
      && f.clientId.Some? && f.clientId.value == CN_MARKER + f.username
      && f.tokenSub.Some? && f.tokenSub.value == f.username
  {
    var identity := DecideUserIdentity(f.username, f.vhost, f.clientId);
    if identity != Allow then identity else DecideUserSubject(f.username, f.tokenSub)
  }

  function DecideVhost(vhost: string, username: string, clientId: Option<string>,
                       session: Option<Session>, now: int): Decision {
    if vhost != DOMO_VHOST then Deny(VhostNotDomo)
    else
      match ClientIdBinding(username, clientId)
      case Some(reason) => Deny(reason)
      case None =>
        match LiveSession(session, now)
        case Ok(_) => Allow
        case Err(reason) => Deny(reason)
  }

  /** The broker's three per-client queue names. */
  predicate OwnsMqttQueue(username: string, name: string) {
    var cid := ExpectedClientId(username);
    || name == "mqtt-subscription-" + cid + "qos0"
    || name == "mqtt-subscription-" + cid + "qos1"
    || name == "mqtt-will-" + cid
  }

  function DecideResource(vhost: string, username: string, clientId: Option<string>, resource: string,
                          name: string, session: Option<Session>, now: int): Decision {
    if vhost != DOMO_VHOST then Deny(VhostNotDomo)
    else
      match ClientIdBinding(username, clientId)
      case Some(reason) => Deny(reason)
      case None =>
        match LiveSession(session, now)
        case Err(reason) => Deny(reason)
        case Ok(_) =>
          if resource == "exchange" && name == SHARED_TOPIC_EXCHANGE then Allow
          else if resource == "queue" && OwnsMqttQueue(username, name) then Allow
          else Deny(ResourceNotOwned)
  }

  function DecideTopic(vhost: string, username: string, routingKey: string,
                       session: Option<Session>, now: int): Decision {
    if vhost != DOMO_VHOST then Deny(VhostNotDomo)
    else
      match LiveSession(session, now)
      case Err(reason) => Deny(reason)
      case Ok(s) =>
        if Topic.Owns(s.tenantSlug, username, routingKey) then Allow else Deny(RoutingKeyOutsideNamespace)
  }

  // ---------------------------------------------------------------- the token-less requests

  /** One question the broker asks without a token. */
  datatype Ask =
    | AskVhost(vhost: string, username: string, clientId: Option<string>)
    | AskResource(vhost: string, username: string, clientId: Option<string>, resource: string, name: string)
    | AskTopic(vhost: string, username: string, routingKey: string)

  function Answer(ask: Ask, session: Option<Session>, now: int): Decision {
    match ask
    case AskVhost(v, u, cid) => DecideVhost(v, u, cid, session, now)
    case AskResource(v, u, cid, r, n) => DecideResource(v, u, cid, r, n, session, now)
    case AskTopic(v, u, k) => DecideTopic(v, u, k, session, now)
  }

  /** What the question itself has to satisfy, whatever the session says of time. */
  predicate Admissible(ask: Ask, slug: string) {
    && ask.vhost == "domo"
    && (!ask.AskTopic? && ask.clientId.Some? ==> ask.clientId.value == "CN=" + ask.username)
    && (ask.AskResource? ==>
          || (ask.resource == "exchange" && ask.name == "amq.topic")
          || (ask.resource == "queue" && ask.name in {"mqtt-subscription-CN=" + ask.username + "qos0",
                "mqtt-subscription-CN=" + ask.username + "qos1", "mqtt-will-CN=" + ask.username}))
    && (ask.AskTopic? ==> Topic.Owns(slug, ask.username, ask.routingKey))
  }

  lemma QueueNamesExactly(u: string, name: string)
    ensures OwnsMqttQueue(u, name) <==>
            name in {"mqtt-subscription-CN=" + u + "qos0", "mqtt-subscription-CN=" + u + "qos1", "mqtt-will-CN=" + u}
  {
    assert "mqtt-subscription-" + (CN_MARKER + u) == "mqtt-subscription-CN=" + u;
    assert "mqtt-will-" + (CN_MARKER + u) == "mqtt-will-CN=" + u;
  }

  /** No token-less answer is an allow without a session that is live at that moment, and none is refused with one. */
  lemma TokenlessAllowExactly(ask: Ask, session: Option<Session>, now: int)
    ensures Answer(ask, session, now) == Allow <==>
            session.Some? && now < session.value.exp && Admissible(ask, session.value.tenantSlug)
  {
    if ask.AskResource? {
      QueueNamesExactly(ask.username, ask.name);
    }
  }

  /** Why a token-less question is denied: the virtual host, then the client id, then the session, then the question. */
  lemma TokenlessDenialsExactly(ask: Ask, session: Option<Session>, now: int)
    ensures var d := Answer(ask, session, now);
            var foreign := ask.vhost != "domo";
            var unbound := !ask.AskTopic? && ask.clientId.Some? && ask.clientId.value != "CN=" + ask.username;
            var dead := session.None? || now >= session.value.exp;
            && (d == Deny(VhostNotDomo) <==> foreign)
            && (d == Deny(ClientIdNotBoundToUsername) <==> !foreign && unbound)
            && (d == Deny(NoSession) <==> !foreign && !unbound && session.None?)
            && (d == Deny(SessionExpired) <==> !foreign && !unbound && session.Some? && dead)
            && (d == Deny(ResourceNotOwned) <==>
                  !foreign && !unbound && !dead && ask.AskResource? && !Admissible(ask, session.value.tenantSlug))
            && (d == Deny(RoutingKeyOutsideNamespace) <==>
                  !foreign && !dead && ask.AskTopic? && !Admissible(ask, session.value.tenantSlug))
  {
    if ask.AskResource? {
      QueueNamesExactly(ask.username, ask.name);
    }
  }

  /** Why the identity chain is refused, hop by hop. */
  lemma UserDenialsExactly(f: UserFacts)
    ensures var d := DecideUser(f);
            var foreign := f.vhost.Some? && f.vhost.value != "domo";
            var nobody := !IsServiceAccountId(f.username);
            var unbound := f.clientId.Some? && f.clientId.value != "CN=" + f.username;
            && (d == Deny(VhostNotDomo) <==> foreign)
            && (d == Deny(UsernameNotAServiceAccount) <==> !foreign && nobody)
            && (d == Deny(ClientIdMissing) <==> !foreign && !nobody && f.clientId.None?)
            && (d == Deny(ClientIdNotBoundToUsername) <==> !foreign && !nobody && unbound)
            && (d == Deny(TokenDidNotVerify) <==>
                  !foreign && !nobody && f.clientId.Some? && !unbound && f.tokenSub.None?)
            && (d == Deny(TokenSubjectMismatch) <==>
                  && !foreign && !nobody && f.clientId.Some? && !unbound
                  && f.tokenSub.Some? && f.tokenSub.value != f.username)
  {
  }

  /** A volunteered client id can only narrow, and time can only take access away. */
  lemma EvidenceNarrowsAndTimeExpires(ask: Ask, session: Option<Session>, now: int, later: int, cid: string)
    requires !ask.AskTopic? && now <= later
    ensures Answer(ask.(clientId := Some(cid)), session, now) == Allow ==>
              Answer(ask.(clientId := None), session, now) == Allow
    ensures Answer(ask, session, later) == Allow ==> Answer(ask, session, now) == Allow
  {
  }

  /** The user name read back out of one of its queue names. */
  function QueueUser(name: string): string {
    if |name| >= 25 && name[5] == 's' then name[21..|name| - 4]
    else if |name| >= 13 then name[13..]
    else ""
  }

  lemma QueueNamesItsUser(u: string, name: string)
    requires OwnsMqttQueue(u, name)
    ensures QueueUser(name) == u
  {
    var sub, will := "mqtt-subscription-", "mqtt-will-";
    assert |sub| == 18 && |will| == 10 && sub[5] == 's' && will[5] == 'w';
    var cid := ExpectedClientId(u);
    if name == will + cid {
      assert name[5] == 'w' && name[13..] == u;
    } else {
      assert name[5] == 's' && name[21..|name| - 4] == u;
    }
  }

  /** No queue belongs to two user names, whatever characters the names contain. */
  lemma QueueHasOneOwner(u1: string, u2: string, name: string)
    requires OwnsMqttQueue(u1, name) && OwnsMqttQueue(u2, name)
    ensures u1 == u2
  {
    QueueNamesItsUser(u1, name);
    QueueNamesItsUser(u2, name);
  }
}
