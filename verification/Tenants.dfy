/**
 The tenant registry and the session cache (`services/device-twin/src/tenants.rs`), as the objects
 the program has. The tenant map file and the clock are parameters: what a `stat` answered and what
 a read returned.
 */
module Tenants {
  import opened Common
  import Decide
  import Uuid

  const M2M_AUDIENCE := "axiam:m2m"

  type TenantMap = map<string, string>

  /** A verifier is its two assertions: the tenant it expects and the audience it expects. */
  datatype Verifier = Verifier(tenant: string, audience: string)

  predicate PinnedTo(v: Verifier, tenantId: string) {
    Uuid.Parse(tenantId) == Some(v.tenant) && v.audience == M2M_AUDIENCE
  }

  predicate AllPinned(verifiers: map<string, Verifier>) {
    forall t | t in verifiers :: PinnedTo(verifiers[t], t)
  }

  // ---------------------------------------------------------------- the tenant map file

  /** One version of the file; `content` is `None` when it does not parse. */
  datatype FileVersion = Absent | Present(mtime: nat, content: Option<TenantMap>)

  function StatOf(v: FileVersion): Option<nat> {
    if v.Absent? then None else Some(v.mtime)
  }

  function LoadOf(v: FileVersion): TenantMap {
    if v.Present? && v.content.Some? then v.content.value else map[]
  }

  /** Each published version carries a later modification time than every one before it. */
  predicate MtimesIncrease(history: seq<FileVersion>) {
    forall i, j | 0 <= i < j < |history| && history[i].Present? && history[j].Present? ::
      history[i].mtime < history[j].mtime
  }

  /** What the registry holds of the file: the map, and the modification time recorded with it. */
  datatype Held = Held(slugs: TenantMap, readAt: Option<nat>)

  /** A slug lookup that nothing interleaves with. */
  function Lookup(held: Held, tenantId: string, onDisk: Option<nat>, loaded: TenantMap): (Option<string>, Held) {
    if tenantId in held.slugs then (Some(held.slugs[tenantId]), held)
    else if held.readAt == onDisk then (None, held)
    else (if tenantId in loaded then Some(loaded[tenantId]) else None, Held(loaded, onDisk))
  }

  datatype VerifierError = NotServed | NotAUuid | CannotBuild

  class TenantRegistry {
    var slugs: TenantMap
    var slugsReadAt: Option<nat>
    var verifiers: map<string, Verifier>
    /** Whether a key-set verifier can be built against the configured URL. */
    const buildable: bool

    /** Loads the map, then asks for its modification time: two reads, in that order. */
    constructor (loaded: TenantMap, statted: Option<nat>, buildable: bool)
      ensures Holding() == Held(loaded, statted) && verifiers == map[] && this.buildable == buildable
    {
      slugs := loaded;
      slugsReadAt := statted;
      verifiers := map[];
      this.buildable := buildable;
    }

    function Holding(): Held
      reads this
    {
      Held(slugs, slugsReadAt)
    }

    /** A verifier for this identifier can be built: it is a UUID and the URL is usable. */
    predicate CanBuildFor(tenantId: string) { Uuid.Parse(tenantId).Some? && buildable }

    method Slug(tenantId: string, onDisk: Option<nat>, loaded: TenantMap) returns (slug: Option<string>)
      modifies this`slugs, this`slugsReadAt
      ensures (slug, Holding()) == Lookup(old(Holding()), tenantId, onDisk, loaded)
    {
      if tenantId in slugs {
        return Some(slugs[tenantId]);
      }
      if slugsReadAt == onDisk {
        return None;
      }
      slug := if tenantId in loaded then Some(loaded[tenantId]) else None;
      slugs := loaded;
      slugsReadAt := onDisk;
    }

    method Knows(tenantId: string, onDisk: Option<nat>, loaded: TenantMap) returns (known: bool)
      modifies this`slugs, this`slugsReadAt
      ensures Holding() == Lookup(old(Holding()), tenantId, onDisk, loaded).1
      ensures known <==> Lookup(old(Holding()), tenantId, onDisk, loaded).0.Some?
    {
      var slug := Slug(tenantId, onDisk, loaded);
      known := slug.Some?;
    }

    /** A tenant that is not served gets no verifier, and a verifier is only ever its own tenant's. */
    method VerifierFor(tenantId: string, onDisk: Option<nat>, loaded: TenantMap)
      returns (r: Result<Verifier, VerifierError>)
      requires AllPinned(verifiers)
      modifies this
      ensures AllPinned(verifiers)
      ensures Holding() == Lookup(old(Holding()), tenantId, onDisk, loaded).1
      ensures r == Err(NotServed) <==> Lookup(old(Holding()), tenantId, onDisk, loaded).0.None?
      ensures r.Ok? ==> tenantId in verifiers && verifiers == old(verifiers)[tenantId := r.value]
      ensures r.Err? ==> verifiers == old(verifiers)
      ensures r.Ok? <==> Lookup(old(Holding()), tenantId, onDisk, loaded).0.Some?
                         && (tenantId in old(verifiers) || CanBuildFor(tenantId))
    {
      var known := Knows(tenantId, onDisk, loaded);
      if !known {
        return Err(NotServed);
      }
      if tenantId in verifiers {
        return Ok(verifiers[tenantId]);
      }
      var uuid := Uuid.Parse(tenantId);
      if uuid.None? {
        return Err(NotAUuid);
      }
      if !buildable {
        return Err(CannotBuild);
      }
      var built := Verifier(uuid.value, M2M_AUDIENCE);
      verifiers := verifiers[tenantId := built];
      return Ok(built);
    }

    /**
     Builds every verifier the held map names. It succeeds exactly when each tenant without a
     verifier has a UUID for an identifier and verifiers can be built; it never touches the file.
     */
    method Warm() returns (r: Result<nat, VerifierError>)
      requires AllPinned(verifiers)
      modifies this
      ensures AllPinned(verifiers) && Holding() == old(Holding())
      ensures r.Ok? <==> forall t | t in slugs :: t in old(verifiers) || CanBuildFor(t)
      ensures r.Ok? ==> forall t :: t in verifiers <==> t in old(verifiers) || t in slugs
    {
      var todo := slugs.Keys;
      ghost var had := verifiers.Keys;
      while todo != {}
        invariant Holding() == old(Holding()) && AllPinned(verifiers)
        invariant forall t | t in todo :: t in slugs
        invariant forall t | t in slugs && t !in todo :: t in had || CanBuildFor(t)
        invariant forall t :: t in verifiers <==> t in had || (t in slugs && t !in todo)
        decreases todo
      {
        var id :| id in todo;
        var built := VerifierFor(id, None, map[]);
        if built.Err? {
          assert id in slugs && id !in had && !CanBuildFor(id);
          return Err(built.error);
        }
        todo := todo - {id};
      }
      return Ok(|slugs|);
    }
  }

  class SessionCache {
    var sessions: map<string, Decide.Session>

    constructor ()
      ensures sessions == map[]
    {
      sessions := map[];
    }

    method Get(username: string) returns (session: Option<Decide.Session>)
      ensures session == if username in sessions then Some(sessions[username]) else None
    {
      session := if username in sessions then Some(sessions[username]) else None;
    }

    method Insert(username: string, session: Decide.Session)
      modifies this
      ensures sessions == old(sessions)[username := session]
    {
      sessions := sessions[username := session];
    }
  }

  // ---------------------------------------------------------------- the start-up race

  /** A file published between the load and the stat is missed until the file changes again. */
  lemma StartupCanMissATenant()
    ensures var before, after := Absent, Present(1, Some(map["t" := "lakeside"]));
            var held := Held(LoadOf(before), StatOf(after));
            "t" in LoadOf(after) && Lookup(held, "t", StatOf(after), LoadOf(after)) == (None, held)
  {
  }
}
