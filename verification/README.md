# Domo: a verified model of its state machines, names and bring-up

A Dafny model of the parts of the Domo demo whose correctness is not visible in one function: the
Device Twin's authorization of broker connections, the topic and naming schemes, the role catalog,
and the resumable provisioning that creates organization, tenants, resource tree and certificates.
`dafny verify dfyconfig.toml` checks everything.

## How it is laid out

| files | what they are |
|---|---|
| `Twin`, `TwinAlone`, `TenantCache`, `Rmq`, `Tenants`, `Decide` | the Device Twin: every interleaving of its handlers as a state machine; its tenant registry and session cache as classes; its pure decision core |
| `Topic`, `Uuid`, `Text` | MQTT topics to AMQP routing keys, and who owns which key |
| `Calendar`, `Stamps` | the date arithmetic of the stage markers, and the strings they hold |
| `Naming`, `Catalog`, `Access`, `TwoLobbies`, `Grants` | names and groups, the catalog validator, and what the roles reach on a tree |
| `Tree`, `TreeRuns`, `TreeConvergence`, `TreeScopes`, `TreePlaces`, `TreeDeadEnds`, `TreeStamps`, `TreeClient`, `SmokeBranch`, `SmokeRuns`, `SmokeFixture`, `SmokeMarks`, `SmokeCompletion`, `SelfService` | building a resource branch by remote calls |
| `StoreAccess`, `SmokeAccess` | the access theorems, said of the store that is built |
| `ServiceCerts`, `ServiceRuns`, `ServiceRounds`, `ServiceClient` | service accounts, keys and certificates |
| `OrgBootstrap`, `OrgSession`, `TenantAdmin`, `AdminRuns`, `AdminSession`, `Listing` | credentials, the organization and its tenants' administrators |
| `Resume` | the ten-stage bring-up, its markers, probes and interruption hook |
| `Teardown`, `TeardownOrder`, `TeardownRun`, `TeardownNames`, `TeardownClient` | removing fixtures leaf-first |
| `PemCounter` | the private-key block counter |
| `Common`, `Remote`, `Rounds` | results; calls that can fail or be a run's last, and the client that makes them; the same work in tenant after tenant |

Code that changes things step by step is a method or a class here, proved equal to a function of its
old state; the theorems are about those functions, over whole histories. Every remote call and every
write to the secrets tree meets a fate: it is answered, fails before it takes effect, or takes effect
and then fails; and a run ends wherever its fates do. A history is any number of such runs.

## What is assumed

- Slugs satisfy `validate_slug`, and account ids are UUIDs, where a statement says so.
- List calls return the complete listing; ids are unique; group names and user names are unique in a
  tenant. Resource names are not.
- Each published version of the tenant map file has a later modification time than those before it.
- A write to the secrets tree is atomic. Generated keys, passwords and identifiers are fresh.
- A verifier accepts a token only if the signature is good, the tenant is the one it is pinned to, the
  audience is the machine one and the expiry is within 60 seconds of leeway.
- The authorization server decides by one rule, stated in `authz/catalog.toml:15-27` and
  `tools/domo-bootstrap/src/stages/tree.rs:24-29`: allow exactly when a group of the subject holds a
  role that grants the action, scoped to the resource or to one above it.
- The server refuses to delete a resource that has a child.
- What it does with a role a group already holds is not settled in the repository: any second binding
  is refused (`authz/catalog.toml:23-24`, `.planning/PROJECT.md:121`,
  `.planning/research/ARCHITECTURE.md:38-41`), or none is (`docs/dogfooding-findings.md:121-127`), or
  only the same one (the error `tools/domo-bootstrap/src/stages/tree.rs:242-259` expects of a re-run).
  `Remote.ScopeRule` names the three. Nothing is assumed of which one holds: a statement says so where
  it is for some of them, and every other holds under all.
- Under the one-scope rule the server's index is sound where a history starts: a group holds a role at
  one node at most. That it stays so is proved.

## Where the code falls short of its description

Each item names a lemma with a concrete input that shows it and one with the exact condition under
which the promise holds.

- A filter with a leading wildcard, translated, also reaches topics starting with `$`, which section
  4.7.2 of MQTT 3.1.1 keeps apart (`Topic.ReservedTopicsAreWider`, `Topic.TranslationPreservesMatching`).
- Composed apartment slugs keep one unit of two towers apart, as
  `tools/domo-bootstrap/src/naming.rs:104` says; units with hyphens can still make two apartments
  share a slug (`Naming.ApartmentSlugsCanCollide`, `Naming.ApartmentSlugsCollideExactly`).
- Groups are named by kind and slug, not by place. Where a group may hold its role at several scopes,
  common areas, apartments or devices of one slug share their people
  (`TwoLobbies.LobbiesShareTheirOperators`, `Access.GroupsStayInPlaceExactly`,
  `Grants.SharedSlugsAreNot`, `Grants.GrantsAreExactIff`). Where it may not, the second of them cannot be
  built or granted (`TreeDeadEnds.TwoLobbiesAreADeadEnd`, `TreeDeadEnds.AnsweredRunsCompleteExactly`).
- The registry loads the tenant map and then stats it; a file published in between is missed
  (`Tenants.StartupCanMissATenant`, `TenantCache.StartupIsSoundExactly`). Two overlapping refreshes can
  leave an older map under a newer time (`TenantCache.OverlappingRefreshesCanStick`,
  `TenantCache.SoundExactlyOneAtATime`).
- `ensure` promises exactly one certificate; with the key file lost it binds a second
  (`ServiceCerts.ALostKeyIsNotVerified`, `ServiceCerts.CompletedRunVerifiesExactly`).
- Provisioning a tenant administrator whose stored password is lost completes with a password that
  does not sign in (`TenantAdmin.ALostPasswordDoesNotSignIn`, `TenantAdmin.CompletedRunSignsInExactly`).
- The catalog probe reads a failed tenant listing as no tenants and answers "done"
  (`Resume.AFailedListingHidesTheCatalog`, `Resume.CatalogProbeIsTruthfulExactly`).
- The tenants stage also writes the map by which the Twin knows tenants, and its probe does not look at
  it: lost, it stays lost (`Resume.AMissingMapIsNotMissed`, `Resume.TenantsProbeIsTruthfulExactly`).

## Model

| member | source | states |
|---|---|---|
| `Twin.RunKeepsInv` | services/device-twin/src/rmq.rs:79-226 | over every interleaving of handlers, clock ticks and file publications, every reachable state keeps the inductive invariant |
| `Twin.EverySessionHasAWitness` | services/device-twin/src/rmq.rs:79-148 | in every state of every run each cached session was left by an allowed CONNECT of that user name: its token, accepted by a verifier pinned to the session's tenant, has the session's tenant and expiry, and the slug it looked up is the session's and was in some version of the tenant map |
| `Twin.EveryTokenlessAllowIsBacked` | services/device-twin/src/rmq.rs:172-226 | every vhost, resource or topic allow rests on a session that was in the cache under that user name in this or an earlier state, left there by such a CONNECT, live when the clock was read, and on an admissible question |
| `Twin.ConnectAllowsExactly` | services/device-twin/src/rmq.rs:79-148 | a finished CONNECT allows exactly when the decision core allows on the verified facts and every tenant check passed; a refused identity never reaches a verifier |
| `Twin.OnlyConnectWritesSessions` | services/device-twin/src/rmq.rs:132-147 | only the last step of an allowed CONNECT changes the session cache, and only its own user's entry |
| `Twin.ExpiredUsersAreDenied` | services/device-twin/src/rmq/decide.rs:146-173 | once the clock has reached every expiry verified for a user, every token-less answer to it is a denial |
| `Twin.LeewaySessionsGrantNothing` | services/device-twin/src/rmq/decide.rs:146-173 | a token accepted only through the leeway leaves a session that no later question can use |
| `Twin.AllowedTopicsNeverCross` | services/device-twin/src/rmq/decide.rs:342-361 | two allowed topic checks whose patterns share a key belong to one account, in every run |
| `Rmq.TwinState.RmqUser` | services/device-twin/src/rmq.rs:79-148 | CONNECT undisturbed: allow exactly on the identity chain, the tenant lookup and the verifier; the cache gains exactly that session; the reason of a denial; a refused identity costs no tenant work |
| `Rmq.TwinState.RmqTokenless` | services/device-twin/src/rmq.rs:172-226 | the token-less endpoints allow exactly on a live session and an admissible question |
| `TwinAlone.SoloSlugIsLookup` | services/device-twin/src/tenants.rs:99-120 | the interleavable steps of the slug lookup, undisturbed, are the sequential lookup |
| `TwinAlone.SlugAmidIsLookup` | services/device-twin/src/tenants.rs:99-120 | with versions of the file published between its steps, the lookup is the sequential one of the version statted and the version read, and records the statted one's time |
| `TwinAlone.ConnectAloneExactly` | services/device-twin/src/rmq.rs:79-148 | from every reachable state, a CONNECT whose steps run with nothing in between ends in allow if and only if its token names a tenant, the identity chain holds, the lookup on the newest file finds a slug, and the verifier is cached or can be built; it gives the first reason that is missing, and leaves the sessions, the held map and the verifiers as the undisturbed handler does |
| `TwinAlone.ConnectCanRunAlone` | services/device-twin/src/rmq.rs:79-148 | and such a run exists: from every reachable state it can be taken to its end |
| `TwinAlone.AskAloneExactly` | services/device-twin/src/rmq.rs:172-226 | from every reachable state, a token-less request whose steps run with nothing in between is allowed if and only if the user has an entry, unexpired now, and the question is admissible |
| `Decide.DecideUser` | services/device-twin/src/rmq/decide.rs:214-260 | allow exactly when vhost, user name, certificate-derived client id and verified subject form the three-hop chain |
| `Decide.TokenlessAllowExactly` | services/device-twin/src/rmq/decide.rs:270-361 | token-less allow exactly with a session unexpired now and a question satisfying the endpoint's own rules |
| `Decide.TokenlessDenialsExactly` | services/device-twin/src/rmq/decide.rs:270-361 | which of the five reasons a token-less denial gives, each exactly: virtual host, client id, session, expiry, question |
| `Decide.UserDenialsExactly` | services/device-twin/src/rmq/decide.rs:214-260 | which of the six reasons a refused CONNECT gives, each exactly, hop by hop |
| `Decide.EvidenceNarrowsAndTimeExpires` | services/device-twin/src/rmq/decide.rs:157-173 | a volunteered client id only narrows, and time only takes access away |
| `Decide.QueueHasOneOwner` | services/device-twin/src/rmq/decide.rs:333-338 | each queue name is owned by at most one user name, for all strings |
| `Uuid.UuidsArePlain` | services/device-twin/src/rmq/decide.rs:187-189 | an account id that parses as a UUID carries no separator, wildcard or colon and is no wildcard level |
| `Uuid.ReadExactly` | services/device-twin/src/rmq/decide.rs:187-189 | a text is read as an identifier if and only if it writes that identifier's 32 digits, in either case, plain, hyphenated, in braces or as a URN |
| `Tenants.TenantRegistry.Slug` | services/device-twin/src/tenants.rs:99-120 | answer and held map are the sequential lookup of the old ones |
| `Tenants.TenantRegistry.Knows` | services/device-twin/src/tenants.rs:124-126 | true exactly when the lookup finds a slug |
| `Tenants.TenantRegistry.VerifierFor` | services/device-twin/src/tenants.rs:140-161 | every stored verifier stays pinned to its key; a tenant not served gets none; success exactly when served and cached or buildable |
| `Tenants.TenantRegistry.Warm` | services/device-twin/src/tenants.rs:73-83 | succeeds exactly when every held tenant can have a verifier, then each has one; the held map is untouched |
| `Tenants.StartupCanMissATenant` | services/device-twin/src/tenants.rs:48-59 | a concrete file published between load and stat whose tenant is then missed |
| `TenantCache.CacheIsKept` | services/device-twin/src/tenants.rs:99-120 | with at most one lookup off the fast path at once, over every run: a cache not older than its recorded time stays so, and one lacking no tenant of the recorded version keeps lacking none |
| `TenantCache.LookupAnswersAreTrue` | services/device-twin/src/tenants.rs:99-120 | then every "no such tenant" of every run is true of the version the lookup statted or read |
| `TenantCache.SlugAnswersWereServed` | services/device-twin/src/tenants.rs:99-120 | in any run, however many refreshes overlap, a slug answered was in some version read |
| `TenantCache.OverlappingRefreshesCanStick` | services/device-twin/src/tenants.rs:99-120 | from a clean start two requests reach a state, no refresh under way, that refuses the newest file's tenant for as long as the file stands |
| `TenantCache.SoundExactlyOneAtATime` | services/device-twin/src/tenants.rs:99-120 | for each bound k on lookups off the fast path at once: no run goes stale, and no "no such tenant" is false, if and only if k is at most 1 |
| `TenantCache.StartupIsSoundExactly` | services/device-twin/src/tenants.rs:48-59 | over all runs, one refresh at a time, that start from a load of one version and a stat of a later one: every "no such tenant" is true of the version checked if and only if the statted version names no tenant the loaded one lacked |
| `Topic.ToRoutingKey` | crates/domo-common/src/topic.rs:70-97 | the loop computes the specified key, level by level |
| `Topic.WordsOfKey` | crates/domo-common/src/topic.rs:70-97 | the words of the key are the translated levels of the topic |
| `Topic.RefusedExactly` | crates/domo-common/src/topic.rs:70-97 | a key is returned exactly when none of the refusal conditions holds |
| `Topic.TranslationInverts` | crates/domo-common/src/topic.rs:70-97 | an inverse recovers the topic from every key returned |
| `Topic.TranslationPreservesMatching` | crates/domo-common/src/topic.rs:70-97 | filter and topic match in MQTT if and only if their keys match in AMQP, except for a leading wildcard against a topic starting with `$` |
| `Topic.ReservedTopicsAreWider` | crates/domo-common/src/topic.rs:70-97 | the exception is real: `#` and `$SYS` |
| `Topic.OwnsRoutingKey` | crates/domo-common/src/topic.rs:112-130 | the stepping ownership check decides the declarative rule over levels |
| `Topic.OwnedPatternStaysInside` | crates/domo-common/src/topic.rs:112-130 | every key an owned pattern matches begins with the levels domo, slug, account |
| `Topic.SealedExactly` | crates/domo-common/src/topic.rs:112-130 | that holds for all patterns if and only if neither level is a wildcard (or one contains the separator) |
| `Topic.OwnersNeverShareAKey` | crates/domo-common/src/topic.rs:112-130 | two distinct devices never own patterns that share a key |
| `Topic.OwnershipIsThePrefix` | crates/domo-common/src/topic.rs:39-130 | for accepted topics, owning the key is lying under the device prefix and a separator |
| `Naming.ValidateSlug` | tools/domo-bootstrap/src/naming.rs:130-156 | accepts exactly the slugs of the accepted class; a dot is reported before a colon |
| `Naming.SlugsCarryNoSeparator` | tools/domo-bootstrap/src/naming.rs:130-156 | an accepted slug has no colon, at-sign, topic separator or wildcard and is not blank |
| `Naming.ResourceNamesAreInjective` | tools/domo-bootstrap/src/naming.rs:94-100 | a resource name determines kind and, except for a portfolio, slug |
| `Naming.GroupNamesAreInjective` | tools/domo-bootstrap/src/naming.rs:118-124 | a group name determines role, kind and, except for a portfolio, slug |
| `Naming.ApartmentSlugsCollideExactly` | tools/domo-bootstrap/src/naming.rs:108-112 | when two apartments share a slug: exactly the same apartment or one building name extending the other by a word of the unit |
| `Naming.ApartmentSlugIsInjectiveWhere` | tools/domo-bootstrap/src/naming.rs:108-112 | injective for one fixed unit or hyphen-free units |
| `Naming.ApartmentSlugsCanCollide` | tools/domo-bootstrap/src/naming.rs:108-112 | a concrete collision of accepted names |
| `Naming.SmokeNamesAreReadBack` | tools/domo-bootstrap/src/stages/smoke/teardown.rs:121-123 | of generated resource names, the reader recognises exactly those with a reserved slug |
| `Naming.SmokeGroupsAreReadBack` | tools/domo-bootstrap/src/stages/smoke/teardown.rs:126-128 | of generated group names, likewise |
| `Naming.ReservedApartments` | tools/domo-bootstrap/src/naming.rs:108-112 | an apartment slug is reserved exactly when its building is `smoke` or is reserved |
| `Catalog.WildcardIn` | tools/domo-bootstrap/src/catalog.rs:109-111 | none exactly for a wildcard-free string, else the first wildcard character |
| `Catalog.Validate` | tools/domo-bootstrap/src/catalog.rs:118-211 | accepts exactly the well-formed catalogs, and reports the first thing wrong with any other |
| `Catalog.ChecksAreTheRule` | tools/domo-bootstrap/src/catalog.rs:118-211 | passing every check in turn is the declarative rule, both ways |
| `Catalog.ToManifest` | tools/domo-bootstrap/src/catalog.rs:226-247 | each entry projected in order, roles never global, grants never denials |
| `Catalog.ManifestKeysResolve` | tools/domo-bootstrap/src/catalog.rs:226-247 | for an accepted catalog keys are distinct and each grant resolves to one permission |
| `Catalog.ManifestGrantsExactly` | tools/domo-bootstrap/src/catalog.rs:226-247 | the manifest gives each role exactly the actions the catalog lists, none with a wildcard |
| `Catalog.RolesForHasOneCandidate` | tools/domo-bootstrap/src/catalog.rs:255-261 | for an accepted catalog one template at most can match, and its roles are all defined |
| `Catalog.CodeAgreesWithTheCatalog` | authz/catalog.toml:222-246 | the code's table of structural groups is the shipped catalog's templates, for every kind of node |
| `Access.ThreeRolesOperate` | authz/catalog.toml:121-223 | device:operate is granted by resident, granted-operator and common-operator only |
| `Access.EveryRoleHasItsPlace` | tools/domo-bootstrap/src/naming.rs:166-181 | every role that grants anything has its groups made with one kind of node, or the two kinds of common area, or is the one that devices or guests hold |
| `Access.OperatesExactly` | tools/domo-bootstrap/src/stages/tree.rs:226-262 | through structural groups a subject operates exactly what lies under a node whose operators it is among |
| `Access.StaffOperateExactlyUnderCommons` | authz/catalog.toml:15-27 | on any tree, some staff subject operates a device if and only if a common area lies above it |
| `Access.ApartmentsAndCommonsAreApart` | tools/domo-bootstrap/src/naming.rs:37-58 | on a tree shaped as documented nothing lies under both an apartment and a common area |
| `Access.NoStaffRoleOperatesAnApartment` | authz/catalog.toml:121-246 | no subject in staff groups only ever operates a device in an apartment, on trees of any size |
| `Access.AGroupReachesItsNamesakes` | tools/domo-bootstrap/src/naming.rs:118-124 | whichever structural bindings were made, a group's members operate exactly what lies under a node of its kind and slug that it is bound at |
| `Access.AGroupReachesEveryNamesake` | tools/domo-bootstrap/src/naming.rs:118-124 | with all of them made, exactly what lies under any node of that kind and slug, wherever it lies |
| `Access.OneScopeReachesOneNode` | authz/catalog.toml:23-30 | under the one-scope rule a bound group operates exactly what lies under that one node |
| `Access.AllCanBeBoundExactly` | authz/catalog.toml:23-30 | all structural bindings can stand together if and only if the rule allows several scopes or no two nodes with structural groups share a name |
| `Access.GroupsStayInPlaceExactly` | authz/catalog.toml:23-30 | on a shaped tree with all structural bindings, every operators' group operates only under its own node if and only if no two common areas of one kind and no two apartments share a slug |
| `StoreAccess.StaffAreKeptOut` | tools/domo-bootstrap/src/stages/tree.rs:88-262 | at every cut of every history of runs of a shaped plan the built store is a shaped tree whose bindings are structural or were there, and staff alone operate no device in an apartment of it |
| `StoreAccess.OwnAndGrantedAreHarmless` | authz/catalog.toml:175-195 | the other bindings that arise, a device's own and a grant's, let no staff group operate |
| `SmokeAccess.StaffAreKeptOutOfTheFixture` | tools/domo-bootstrap/src/stages/smoke.rs:151-252 | the same of every history of fixture builds |
| `SmokeAccess.ResidentsOperateTheFixture` | tools/domo-bootstrap/src/stages/smoke.rs:151-182 | and once a build completes the apartment's residents do operate both devices in it |
| `TwoLobbies.LobbiesShareTheirOperators` | tools/domo-bootstrap/src/naming.rs:171-181 | a concrete tree, shaped and named as documented, on which one lobby's operators operate a lamp of another |
| `Grants.GrantsReach` | authz/catalog.toml:175-184 | a grant comes to membership of the device's own group and that group's binding to it |
| `Grants.BoundWhileHeld` | authz/catalog.toml:175-184 | after any history under any rule, a device group is bound if and only if it has a member |
| `Grants.DistinctDevicesAreExact` | authz/catalog.toml:175-184 | with distinct device slugs, under any rule, after any grants and revokes exactly the standing grants operate |
| `Grants.SharedSlugsAreNot` | authz/catalog.toml:175-184 | two devices of one slug, a grant on each: under the one-scope rule the second is refused and operates nothing; otherwise both members operate both |
| `Grants.GrantsAreExactIff` | authz/catalog.toml:23-30 | for each rule, exactness over all histories holds if and only if no two devices share a slug |
| `Grants.StaffOperateApartmentsByGrantExactly` | authz/catalog.toml:175-184 | a user in any staff groups operates a device in an apartment, after any history, if and only if its own grant on that device stands |
| `TreeClient.SpecHoldsStructuralGroups` | tools/domo-bootstrap/src/naming.rs:171-181 | what a node calls for are its kind's structural roles under the names the scheme gives |
| `TreeClient.NamesDetermineSpecs` | tools/domo-bootstrap/src/naming.rs:94-124 | equal names call for equal groups |
| `TreeClient.GroupFor` | tools/domo-bootstrap/src/stages/tree.rs:181-222 | search, create, and re-search after a failed create, as specified |
| `TreeClient.BindRole` | tools/domo-bootstrap/src/stages/tree.rs:226-259 | assign, and any failure checked against the listed bindings, as specified for each of the three rules of the server |
| `TreeClient.BindGroup` | tools/domo-bootstrap/src/stages/tree.rs:168-262 | store and answer are the specified ones; a bad name touches nothing |
| `TreeClient.ResourceFor` | tools/domo-bootstrap/src/stages/tree.rs:94-130 | resolve under the parent, refuse two, create if none, as specified |
| `TreeClient.EnsureNode` | tools/domo-bootstrap/src/stages/tree.rs:88-135 | the loop over structural roles leaves the specified store and answer |
| `TreeClient.ExpectNode` | tools/domo-bootstrap/src/stages/smoke.rs:218-235 | the one child of that name, or the specified error; changes nothing |
| `TreeRuns.EnsureResourceBuilds` | tools/domo-bootstrap/src/stages/tree.rs:88-135 | however a call ends it adds only this node, its role groups and bindings scoped to it, makes no twins, and if it answers the node is complete |
| `TreeRuns.WalkConfined` | tools/domo-bootstrap/src/stages/tree.rs:88-262 | any run, however it ends, adds only what the finished branch holds |
| `TreeConvergence.InterruptedRunsConverge` | tools/domo-bootstrap/src/stages/tree.rs:88-262 | under any rule, from a store without twin siblings, any number of cut-off runs then one that completes: old nodes unchanged, each planned node exactly once, exactly its groups and bindings added |
| `TreeConvergence.CreatedNodesCarryExactlyTheirGroups` | tools/domo-bootstrap/src/stages/tree.rs:226-262 | the bindings scoped to a created node are exactly those of its structural groups |
| `TreeStamps.PlannedNodesAreMarked` | tools/domo-bootstrap/src/stages/tree.rs:107-128 | over every history of runs with fresh values: a created node's identifier is shared by no other node, old or new, its type is its name up to the first colon, and it lies where creations land |
| `TreeStamps.EachRunDrawsItsStamps` | tools/domo-bootstrap/src/stages/tree.rs:107-128 | and the identifier is one of the values drawn by the very run that created the node |
| `TreeConvergence.AnotherRunChangesNothing` | tools/domo-bootstrap/src/stages/smoke.rs:151-182 | a further run changes nothing, however it ends, and answers with the same nodes |
| `TreeScopes.EnsureResourceDecides` | tools/domo-bootstrap/src/stages/tree.rs:88-262 | under the one-scope rule an answered call completes a node if and only if none of its groups holds its role at another |
| `TreeDeadEnds.AnsweredRunsCompleteExactly` | tools/domo-bootstrap/src/stages/tree.rs:88-262 | after any cut-off runs one whose calls are answered completes, given the catalog's roles: always, unless the server allows a group one scope; then if and only if, in the store the first run found, no item's group holds its role at another node and no two items at different nodes share one |
| `TreeDeadEnds.TwoLobbiesAreADeadEnd` | tools/domo-bootstrap/src/stages/tree.rs:240-259 | the concrete dead end: a lobby of one slug in each of two sites completes if and only if a group may hold its role at several scopes |
| `TreeConvergence.ResolveReturnsTheBranch` | tools/domo-bootstrap/src/stages/smoke.rs:191-235 | the read-only walk changes nothing and returns the built nodes, always if its calls are answered |
| `TreeConvergence.TwinsAreRefused` | tools/domo-bootstrap/src/stages/tree.rs:96-106 | two siblings of one name are refused and nothing is created |
| `SmokeBranch.SmokeIsGoodAndReserved` | tools/domo-bootstrap/src/stages/smoke.rs:66-74 | every fixture slug is valid and carries the reserved prefix, and the two devices are named apart |
| `SmokeBranch.ResolvePortfolio` | tools/domo-bootstrap/src/stages/smoke.rs:256-276 | the one root named portfolio, or an error |
| `SmokeBranch.Build` | tools/domo-bootstrap/src/stages/smoke.rs:151-252 | the straight-line build, each node checked to be in the acting tenant, is the walk over its seven-node plan under the portfolio |
| `SmokeBranch.Resolve` | tools/domo-bootstrap/src/stages/smoke.rs:191-214 | the straight-line resolve is the read-only walk over the same plan |
| `SmokeRuns.InterruptedBuildsConverge` | tools/domo-bootstrap/src/stages/smoke.rs:151-182 | whole builds, any number of them cut off anywhere: once one completes, the branch hangs under the one portfolio the first found, and nothing else was added |
| `SmokeRuns.SmokeBuildsConverge` | tools/domo-bootstrap/src/stages/smoke.rs:151-252 | for the fixture's own plan and any valid slugs: then every node is in the acting tenant and each created node has exactly its structural bindings |
| `SmokeFixture.CompletedBuildsAreTheFixture` | tools/domo-bootstrap/src/stages/smoke.rs:151-182 | once a build completes each of its nodes hangs where the branch has it, under its own name, with each of its roles held by its own group: the installers and concierge of the site, the operators and managers of both lobbies, the residents, both devices in the apartment; eight nodes in all where the devices are named apart |
| `SmokeMarks.SmokeNodesAreMarked` | tools/domo-bootstrap/src/stages/smoke.rs:151-182 | over every history of fixture builds the created nodes have identifiers of their own, the types their names say, and lie where creations land |
| `SmokeCompletion.AnsweredBuildsCompleteExactly` | tools/domo-bootstrap/src/stages/smoke.rs:151-252 | in a tenant of its own, after any cut-off builds one whose calls are answered completes if and only if there was one portfolio at first and, under the one-scope rule, no role group of the plan was taken |
| `SmokeRuns.ResolveReturnsWhatBuildReturned` | tools/domo-bootstrap/src/stages/smoke.rs:151-235 | on the store a completed build left, resolve returns the same branch, always if answered, and changes nothing |
| `SelfService.EnsureMember` | tools/domo-bootstrap/src/stages/smoke.rs:347-383 | binding, search, member listing and addition leave the specified store and answer |
| `SelfService.TheDeviceIsTheOnlyMember` | tools/domo-bootstrap/src/stages/smoke.rs:347-383 | no run adds a member but the device's own account, and a completed one has it in a bound group |
| `SelfService.AnotherRunAddsNothing` | tools/domo-bootstrap/src/stages/smoke.rs:347-383 | after completion a further run changes nothing |
| `ServiceClient.AccountOf` | tools/domo-bootstrap/src/stages/service_certs.rs:91-113 | the account found or created, as specified |
| `ServiceClient.KeyOf` | tools/domo-bootstrap/src/stages/service_certs.rs:121-133 | the stored key, or a fresh one stored first, as specified |
| `ServiceClient.EnsureService` | tools/domo-bootstrap/src/stages/service_certs.rs:86-195 | account, key, listing, signing, binding and file in order, as specified |
| `ServiceClient.EnsureServices` | tools/domo-bootstrap/src/stages/service_certs.rs:68-82 | the loop over services leaves the specified state |
| `ServiceCerts.EnsureChanges` | tools/domo-bootstrap/src/stages/service_certs.rs:86-195 | a run keeps old certificates and a stored key, adds one certificate at most, with the stored key and only if none fits |
| `ServiceCerts.CompletedRunVerifiesExactly` | tools/domo-bootstrap/src/stages/service_certs.rs:86-270 | a completed run pairs key and certificate; what is verified then holds if and only if it started with none serving the account or one of the tenant with the stored key |
| `ServiceCerts.AnsweredEnsureCompletes` | tools/domo-bootstrap/src/stages/service_certs.rs:86-195 | seven answered calls are enough for one service, from any state |
| `ServiceCerts.LosingTheKeyMintsASecond` | tools/domo-bootstrap/src/stages/service_certs.rs:115-133 | with the key lost after binding, an answered run completes and fails verification |
| `ServiceCerts.ALostKeyIsNotVerified` | tools/domo-bootstrap/src/stages/service_certs.rs:115-133 | a concrete tenant, sound but for its missing key, and a run on it that completes unverified |
| `ServiceRuns.OthersAreKept` | tools/domo-bootstrap/src/stages/service_certs.rs:68-82 | ensuring one service leaves every other's certificates, key and file as they were |
| `ServiceRuns.OneOrphanAtMost` | tools/domo-bootstrap/src/stages/service_certs.rs:164-191 | only a failed run leaves an unbound certificate, and then one |
| `ServiceRounds.InterruptedRunsConverge` | tools/domo-bootstrap/src/stages/service_certs.rs:68-195 | over all tenants, from no bound certificate: at every cut one at most per service, with the stored key; one orphan per run at most in all tenants together; the next answered run completes, and a completed one leaves every service of every tenant verified and paired |
| `ServiceRounds.NothingBeforeSignIn` | tools/domo-bootstrap/src/stages/service_certs.rs:68-82 | unless the signing CA is looked up and the tenant's client signed in, both calls answered, the tenant is left as it was |
| `ServiceClient.RunStage` | tools/domo-bootstrap/src/stages/service_certs.rs:68-82 | the loop over the tenants, each with its CA looked up, its client signed in and its services ensured, leaves the specified state; the first failure ends it |
| `ServiceRuns.Verify` | tools/domo-bootstrap/src/stages/service_certs.rs:204-270 | passes exactly when every service of every tenant has one active certificate of its tenant and its CA |
| `Teardown.DepthOf` | tools/domo-bootstrap/src/stages/smoke/teardown.rs:131-144 | ends on every listing; the number of parents, or one more than the listing is long where it is cut off |
| `Teardown.CutOffNeverFires` | tools/domo-bootstrap/src/stages/smoke/teardown.rs:131-144 | on a forest the walk is never cut off |
| `Teardown.ChildIsOneDeeper` | tools/domo-bootstrap/src/stages/smoke/teardown.rs:131-144 | on a forest a child is exactly one deeper than its listed parent |
| `TeardownOrder.DeepestFirstSorts` | tools/domo-bootstrap/src/stages/smoke/teardown.rs:76-77 | the order is by descending depth and loses or repeats none |
| `TeardownRun.DeletionsExactly` | tools/domo-bootstrap/src/stages/smoke/teardown.rs:71-86 | on a forest, whatever calls fail: only reserved resources with reserved children go; a pass completes only if every child of a reserved resource is reserved, and then exactly the unreserved remain; answered, it completes in that case |
| `TeardownRun.TearDownExactly` | tools/domo-bootstrap/src/stages/smoke/teardown.rs:57-117 | the same of the whole teardown, each list touched only once the one before it is done |
| `TeardownRun.InterruptedTeardownsConverge` | tools/domo-bootstrap/src/stages/smoke/teardown.rs:57-117 | after any number of cut-off teardowns nothing unreserved has gone; an answered one completes if and only if, at first, every child of a reserved resource was reserved, and leaves exactly what was unreserved at first |
| `TeardownRun.EmptiedKeepsTheUnreserved` | tools/domo-bootstrap/src/stages/smoke/teardown.rs:71-86 | the resources so left are exactly the unreserved ones |
| `TeardownNames.EmptiedByNames` | tools/domo-bootstrap/src/stages/smoke/teardown.rs:57-128 | of accounts and users exactly those whose name does not start with `smoke-` are left; of resources and groups exactly those whose resource name does not carry the prefix after its last colon |
| `TeardownNames.OnlyReservedNamesGo` | tools/domo-bootstrap/src/stages/smoke/teardown.rs:57-128 | at every cut of every history of teardowns nothing else has gone |
| `TeardownNames.GeneratedNamesAreRead` | tools/domo-bootstrap/src/stages/smoke/teardown.rs:121-128 | a generated resource or group name is so read if and only if it is not a portfolio's and its slug has the prefix |
| `TeardownNames.GroupsGoFirst` | tools/domo-bootstrap/src/stages/smoke/teardown.rs:57-117 | wherever a teardown is cut off, a list is untouched unless the ones before it hold nothing reserved: groups, resources, accounts, users |
| `TeardownClient.SweepList` | tools/domo-bootstrap/src/stages/smoke/teardown.rs:58-70 | list, pick by name, delete each by id, as specified |
| `TeardownClient.DeleteReserved` | tools/domo-bootstrap/src/stages/smoke/teardown.rs:71-86 | filter, sort by depth, delete in order, as specified |
| `TeardownClient.TearDownTenant` | tools/domo-bootstrap/src/stages/smoke/teardown.rs:57-117 | groups before resources before accounts and users, as specified |
| `Resume.Host.Run` | just/stack.just:580-632 | the loop with its skip, resume and interruption rules leaves the specified markers, work and output |
| `Resume.SuccessIsCompleteExactly` | just/stack.just:580-632 | from any markers and work, a successful run has every stage's work present if and only if no skipped stage was hollow |
| `Resume.DeathLeavesLaterMarkers` | just/stack.just:580-632 | a run that dies leaves all later markers as they were, with earlier stages marked and done; its own stage's too, unless that stage had written its marker itself, its work done, and failed afterwards; by the hook, without any work of it |
| `Resume.TheHookFiresExactly` | tools/domo-bootstrap/src/state.rs:170-181 | the hook stops a host stage always, a bootstrap-owned one exactly if it is not skipped |
| `Resume.SuccessSaysExactly` | just/stack.just:580-632 | a successful run says of every stage that it ran or was skipped; skipped are exactly the marked stages whose probe said done, preflight and verify never |
| `Resume.ResumeIsSaidOnce` | just/stack.just:603-606 | the resuming line is printed at most once, for the first resumable stage run after a skip |
| `Resume.ProbeCatalog` | tools/domo-bootstrap/src/state.rs:357-377 | true exactly when signed in and every tenant of the listing converged, a failed listing being empty |
| `Resume.ProbeTenants` | tools/domo-bootstrap/src/state.rs:334-354 | true exactly when signed in and two or more listed tenants all sign and admit |
| `Resume.CatalogProbeIsTruthfulExactly` | tools/domo-bootstrap/src/state.rs:357-377 | truthful for all tenants if and only if the listing succeeded or the sign-in failed |
| `Resume.TenantsProbeIsTruthfulExactly` | tools/domo-bootstrap/src/state.rs:334-354 | truthful for all listings of two or more demo tenants if and only if the Twin's map names every one of them, or the probe could not sign in or list |
| `Resume.AMissingMapIsNotMissed` | tools/domo-bootstrap/src/stages/tenants.rs:83-105 | a run can succeed with a demo tenant missing from the Twin's map |
| `Resume.AFailedListingHidesTheCatalog` | tools/domo-bootstrap/src/state.rs:365-377 | a failed listing lets a run succeed with the catalog missing |
| `Calendar.CivilIsTheCalendar` | tools/domo-bootstrap/src/state.rs:222-240 | the closed form equals the day-by-day Gregorian calendar, from 1970-01-01, on every day |
| `Calendar.DatesAreValid` | tools/domo-bootstrap/src/state.rs:222-240 | month and day are always valid |
| `Calendar.NothingOverflows` | tools/domo-bootstrap/src/state.rs:222-240 | no signed 64-bit step overflows for any 64-bit clock reading |
| `Stamps.TwentyCharactersExactly` | tools/domo-bootstrap/src/state.rs:241-247 | the string has 20 characters exactly when the year is at most 9999 |
| `Stamps.StringOrderIsTimeOrder` | tools/domo-bootstrap/src/state.rs:241-247 | in that range string order is time order, both ways |
| `Stamps.StampReadsBack` | tools/domo-bootstrap/src/state.rs:222-247 | for every clock reading the stamp names its instant: separators in their places, and fields that, read as decimals, are the calendar's year, month and day and an hour, minute and second that add up to the time of day |
| `OrgSession.Session.SignIn` | crates/domo-common/src/hand_rolled.rs:142-179 | succeeds as specified, and exactly then the session counts as authenticated |
| `OrgSession.Session.CallBootstrap` | crates/domo-common/src/hand_rolled.rs:98-134 | the three answers and their effect, as specified |
| `OrgSession.Session.RunStage` | tools/domo-bootstrap/src/stages/org_bootstrap.rs:28-101 | probe, bootstrap, the three outcomes, final login and marker leave the specified state and answer |
| `OrgBootstrap.RunWritesAhead` | tools/domo-bootstrap/src/stages/org_bootstrap.rs:28-101 | wherever a run is cut off, an account it made has its password stored; a stored password is never replaced |
| `OrgBootstrap.SuccessSignsIn` | tools/domo-bootstrap/src/stages/org_bootstrap.rs:92-101 | a run succeeds only if the stored credentials sign in |
| `OrgBootstrap.MarkersAreEarned` | tools/domo-bootstrap/src/stages/org_bootstrap.rs:28-101 | at every cut of every history, if a standing marker was true at first it is: the stored credentials sign in |
| `OrgBootstrap.RunSpendsAndMarks` | tools/domo-bootstrap/src/stages/org_bootstrap.rs:28-101 | a run that creates the super-admin uses the token up, and one cut off or demanding a reset leaves the marker as it was |
| `OrgBootstrap.OutcomeExactly` | tools/domo-bootstrap/src/stages/org_bootstrap.rs:28-101 | success, "reset required" and failure each characterised exactly by the account, the gate, the token and the stored password, calls being answered |
| `OrgBootstrap.InterruptedRunsRecover` | tools/domo-bootstrap/src/stages/org_bootstrap.rs:28-101 | however many runs are cut off, the next answered one succeeds |
| `Listing.FirstWith` | crates/domo-common/src/hand_rolled.rs:338-343 | the first element with that field value, none exactly if there is none |
| `Listing.ResolveFindsTheUser` | crates/domo-common/src/hand_rolled.rs:328-343 | in either envelope a user is resolved exactly if listed |
| `AdminSession.UserFor` | crates/domo-common/src/hand_rolled.rs:260-285 | created, or on a conflict found by name, as specified |
| `AdminSession.ProvisionTenantAdmin` | crates/domo-common/src/hand_rolled.rs:249-320 | the calls in order leave the specified state and answer |
| `TenantAdmin.ProvisionWritesAhead` | tools/domo-bootstrap/src/stages/tenant_admin.rs:69-83 | wherever a run is cut off, the account has its password stored |
| `TenantAdmin.ProvisionLeavesOthers` | crates/domo-common/src/hand_rolled.rs:286-313 | wherever a run is cut off, nobody but the account of that name has been made administrator or activated, and nothing else about anyone else has changed |
| `TenantAdmin.AdministratorsStayActive` | crates/domo-common/src/hand_rolled.rs:286-313 | nor does any account administer the tenant that is not active |
| `TenantAdmin.CreationActivatesNobody` | crates/domo-common/src/hand_rolled.rs:260-300 | a run cut off within the call that makes the account has activated nobody |
| `TenantAdmin.CompletedRunSignsInExactly` | crates/domo-common/src/hand_rolled.rs:249-320 | after a completed run the stored credentials sign in as an active administrator if and only if the account was new or its password stored |
| `TenantAdmin.AnsweredProvisionCompletesExactly` | crates/domo-common/src/hand_rolled.rs:249-320 | a run whose calls are answered completes if and only if the tenant's role is seeded |
| `TenantAdmin.ALostPasswordDoesNotSignIn` | crates/domo-common/src/hand_rolled.rs:272-281 | a concrete tenant whose stored password is gone, and a run on it that completes with credentials that do not sign in |
| `TenantAdmin.ARerunResolvesTheSameAccount` | crates/domo-common/src/hand_rolled.rs:260-285 | a second run resolves the same account and keeps its password |
| `AdminRuns.InterruptedRunsSignIn` | tools/domo-bootstrap/src/stages/tenant_admin.rs:45-83 | over all tenants, from none having the account: after any cut-off runs an answered one completes if and only if every role is seeded, and a completed one leaves each tenant an active administrator its stored credentials sign in as; however a run ends, everyone else in every tenant stands as at first |
| `AdminSession.RunStage` | tools/domo-bootstrap/src/stages/tenant_admin.rs:45-62 | the loop over the tenants, the session acting in each, leaves the specified state; the first failure ends it |
| `PemCounter.CountPemKeyBlocks` | scripts/guard-secrets.sh:168-177 | the one-pass automaton returns the number of lines that end a complete block |
| `PemCounter.MarkersAreLabelled` | scripts/guard-secrets.sh:168-177 | a line opens or ends a key if and only if it holds the two ends of the marker with nothing but a label between them |
| `PemCounter.SpansAreDisjoint` | scripts/guard-secrets.sh:168-177 | no line is counted in two blocks |

## Left out

- Twin.ConnectAllowsExactly: signatures, key sets, base64 and JSON are an oracle; only what a verifier's success guarantees is used.
- Tenants.TenantRegistry.Slug: the file is a parameter, and lock poisoning is not modelled; the interleavings of its steps are in `Twin`.
- Rmq.TwinState.RmqUser: states the handler undisturbed, because a method has no interleaving; `Twin` states it under every interleaving.
- TreeClient.BindRole: bindings are a set, so where the server refuses nothing a repeated binding is not told from the first.
- TreeClient.GroupFor: a group created by another process between search and create is not modelled separately; a create that takes effect and then fails is.
- ServiceCerts.CompletedRunVerifiesExactly: keys are numbers and a certificate matches by number; PEM, CSR and X.509 encoding and their parse failures are library code.
- Listing.ResolveFindsTheUser: covers the user listing; a status other than created, ok, conflict or no-content is a failed call.
- Grants.GrantsAreExactIff: the grant and revoke calls belong to a later phase; they are modelled as `authz/catalog.toml` describes them, with the group deleted when its last member leaves.
- Catalog.ToManifest: the server's application of a manifest is not modelled beyond what it reads from one.
- Resume.Host.Run: what a stage does is one step that may land or not; a stage is assumed not to undo another's work.
- TeardownClient.TearDownTenant: one tenant; the loop over the two, the revocation of a recorded forged certificate and the removal of the on-disk directory are not modelled.
- The verification of the tree stage and `verify_all` (`tools/domo-bootstrap/src/stages/tree.rs:290-365`, `tools/domo-bootstrap/src/stages/mod.rs:304-317`): a conjunction of checks over listings, like the one proved for service certificates.
- HTTP, TLS, MQTT client code, Docker, shell and compose plumbing, and form parsing: input and output without a decision to prove.
- The internals of the authorization server beyond the rule assumed above.
- Log text, the checklist, the demo card, the landing page, and the Caddy, RabbitMQ and PostgreSQL configuration.
- The probe's connect matrix and event loop: timing and broker behaviour the repository does not define.
- Facts about the shipped catalog that are finite, such as its permission texts.
