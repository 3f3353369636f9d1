# minidp: a verified model of the provider's state machines

minidp is an in-memory OAuth2/OpenID Connect provider. Its guarantees span many requests, files and
clock readings, and this project states and proves them over all of them. Five parts are modelled.

**Token lifecycle.** The store is five maps: live codes, live refresh tokens, consumed refresh tokens,
issued access-token ids and denied ids. Each store method is one critical section, and a grant is
several: take, register, store. `Protocol` is the transition system at that granularity, with a program
counter for every request in flight and a history of everything issued, so that every interleaving of
concurrent requests is a run. `ProtocolInvariants` and `ProtocolSteps` show what every step keeps;
`ProtocolTheorems`, `Revocation`, `Finality`, `Replay` and `Provenance` draw the guarantees from it. `TokenStore` is
the store as the code writes it, a class whose methods loop over the maps, and `Handlers` is the handlers
as the code writes them. Between two critical sections of a handler any valid run of other requests may
come in; each handler call is proved to do to the store exactly what its own events and those runs do
together, and that this is a valid run, so the guarantees over runs are guarantees about the handlers.
`ProtocolFrames` has what the events of a grant leave alone. `Answers` says what the token endpoint answers to whom,
and what its tokens contain, in terms of the request, the store and the clients file alone; `Origins` traces every
code and every family of a run back to a login that passed.

**Signing-key ring.** `KeyRing` gives a start and a rotation over an abstract directory. A rotation reads the
ring and then performs six file operations; `KeyRotations` is the transition system in which any number of
rotations are in progress, operation by operation, with starts in between, and any of them may stop anywhere.
An open file keeps its identity when it is renamed, so a rotation may find itself writing into the ring.
`KeyStart` says entry by entry what a start removes, publishes and refuses. `KeyRotationSteps` shows what every step
keeps, `KeyLifecycle` proves well-formedness, crash consistency and
exactly when a step keeps the listed keys, `KeyRetention` proves retention, and `KeyOverlap` has what
overlapping rotations lose and that one at a time loses nothing.
`KeyDirectory` is the loops over files and ring entries, proved against `KeyRing`.

**Login limiter.** `Limiter` is the token bucket over exact reals: the swept table against one that is
never swept, the independence of keys, the bound on admissions in a window, and progress; `LimiterExact` says exactly
which attempts are admitted.

**Registry and policy.** `Clients` is the validation of a clients file, each loop proved to accept exactly
what its specification says; `Registry` is the index and its queries, each proved equal to a scan of the
list; `Policy` is the read-only decisions of the endpoints.

**Text codecs.** `Scopes` and `Csrf`: the scope claim and the signed login-form token, with the hidden
fields it covers.

Four results say that a natural claim fails, and exactly when it holds:

- Revoking a family is final if and only if no request of that family was in flight between taking its
  token and storing the next one (`Finality.RevocationIsFinalIff`). `RevivedFamily.RevokedFamilyCanRevive`
  has the run in which a replayed refresh token is noticed and revokes the family while the refresh that
  consumed it is still storing the next one, and the family lives on. What the revocation does reach in that
  case is everything issued before it (`Provenance.RevocationReaches`).
- Replacing the ring keeps the key that signs if and only if the new ring was made from the ring it replaces
  (`KeyRetention.SigningKeySurvivesIff`, and `KeyLifecycle.StepKeepsListedIff` for every listed key).
  `KeyOverlap.LostUpdate` has the run in which two rotations overlap and a key that a server already signs with
  is gone from every later start, on any good directory and whatever the retention; `KeyOverlap.EmptiedRing`
  has the one in which they leave a ring that no start can read. The comment at internal/idp/key.go:491-493
  says that the exclusive create serializes rotations; the name of that file contains the fresh kid, so it does not.
- Posting the rendered hidden fields reproduces the parameter fingerprint if and only if each OAuth
  parameter that is present occurs once and is not empty (`Csrf.RepostKeepsFingerprint`).
- Verification reads the clock twice, for the expiry claim and for the denylist. A token of a dead family
  passes if and only if its denial has ended at the second reading (`Provenance.DeadTokenPassesIff`). That end
  is its expiry claim when the token itself was denied and its registered expiry, up to a second later, when its
  family was revoked (`Provenance.DenialEndsWhere`). `LateCheck.DeadTokenCanPass` has the run in which such a
  token passes, and in which it was still refused when its claim had already run out.

Assumptions. Random ids are fresh and not empty. Clock readings do not go back. Hashes, the MAC, base64,
percent-decoding, password checks and URL checks are functions given from outside; a theorem that needs more
of them than that says so in its `requires` (`Csrf.GoodCodec`, `Csrf.Unforged`, `Csrf.CollisionFree`,
`KeyRingProofs.GoodThumb`). A token that verifies was signed by this process, or carries an id this process
has never drawn; it can be presented any number of times and says the same each time. `GoodEnv` is what a start demands: an accepted clients file, an index that can be built from
it, and positive token lifetimes.

## Model

| member | source | states |
|---|---|---|
| `Finality.RevocationIsFinalIff` | internal/idp/store.go:124-219 | For every reachable state and every event that revokes a family (replay, client mismatch, opaque revocation, logout): in every later state of every run no refresh token of the family can be redeemed and no access token of it is accepted, if and only if no request of the family was in flight when it was revoked |
| `Finality.DeadForever` | internal/idp/store.go:177-201 | A family with no live token, no request in flight and no acceptable access token stays that way through every continuation |
| `Finality.RevocationKills` | internal/idp/handlers.go:782-826 | An event that revokes a family with nothing in flight leaves it dead |
| `Finality.InFlightSpeaks` | internal/idp/tokens.go:202-232 | A request in flight can always bring its family back: some continuation ends with a good token of it |
| `Finality.IdleStep` | internal/idp/store.go:108-143 | No event gives a live refresh token or an in-flight request to a known family that has neither |
| `RevivedFamily.RevokedFamilyCanRevive` | internal/idp/handlers.go:782-826 | The counterexample: a valid configuration and a run in which presenting a consumed refresh token is reported as reuse and revokes its family, and the refresh that consumed it then makes the family good again |
| `Provenance.RevocationReaches` | internal/idp/store.go:177-219 | Whatever is in flight, a revocation ends for good every access token of the family registered before it and every refresh token whose id was drawn before it; only what the at most one request in flight goes on to issue can live on |
| `ProtocolTheorems.Conservation` | internal/idp/store.go:108-143 | In every reachable state, a family's live refresh tokens plus its requests in flight are at most one |
| `ProtocolTheorems.SingleUse` | internal/idp/store.go:93-143 | Over a whole run no code and no refresh token yields an entry twice |
| `ProtocolTheorems.LogRun` | internal/idp/store.go:93-143 | The history records exactly the redemptions of the run, in order |
| `Replay.ReplayIsDetected` | internal/idp/store.go:124-143 | After a refresh token is redeemed and anything else has happened, presenting it never yields an entry, and is reported as reuse if and only if it has not expired and its family has not been revoked since it was redeemed; a report leaves no live token of the family and denies all its registered access tokens |
| `Replay.UsedRun` | internal/idp/store.go:124-143 | Through every run, until its expiry, a consumed token is remembered exactly as long as no event revokes its family |
| `Replay.UsedStep` | internal/idp/store.go:177-229 | Before its expiry a step forgets a consumed token if and only if it revokes the token's family |
| `Replay.ReuseRevokes` | internal/idp/store.go:124-143 | Presenting a consumed token is reported exactly while it is remembered and not expired, and what a report does to the family |
| `Replay.ConsumedFacts` | internal/idp/store.go:130-141 | A consumed token is never live, and is remembered with its own entry if at all |
| `ProtocolTheorems.ReachableContinues` | internal/idp/handlers.go:681-826 | A valid run from a reachable state ends in a reachable one, so a handler call keeps every guarantee |
| `ProtocolTheorems.ReachableInv` | internal/idp/store.go:77-229 | Every reachable state satisfies the whole invariant |
| `ProtocolSteps.InvStep` | internal/idp/store.go:77-229 | Every event, whatever else is in flight, keeps the whole invariant |
| `ProtocolSteps.InvRun` | internal/idp/store.go:77-229 | Every run keeps the invariant |
| `StoreTables.RevocationIsExact` | internal/idp/store.go:177-201 | Revoking a nonempty family removes all and only its live and consumed refresh tokens, denies until their expiry all and only its unexpired registered access tokens, and leaves codes, other families and their denials as they were; the empty family is never revoked |
| `StoreTables.RevokeTokenIsExact` | internal/idp/store.go:207-219 | An opaque token is dropped where it is a code; where it is a live or redeemed refresh token, every refresh token of its family goes and the family's tokens are denied; everything else stays |
| `StoreTables.SweepIsExact` | internal/idp/store.go:222-229 | A sweep keeps exactly the entries of each table whose expiry is not before the clock |
| `Revocation.DenialHasACause` | internal/idp/store.go:154-201 | For an unexpired token a step turns the denial on exactly when it revokes the token's own family or denies the token itself, and no step turns it off; tokens of the empty family are only touched by their own denial |
| `Provenance.Coverage` | internal/idp/store.go:147-201 | Every issued, unexpired access token is registered with its subject, family and expiry, or denied at least until its expiry claim |
| `Provenance.DenialIsForGood` | internal/idp/store.go:222-229 | A denied token stays denied until its expiry claim through every continuation, although the sweep forgets entries |
| `Provenance.DeadTokenPassesIff` | internal/idp/handlers.go:835-862 | A token of a dead family passes the denylist check if and only if its denial has ended by then, and that end is its expiry claim or its registered expiry, less than a second apart |
| `Provenance.DenialEndsWhere` | internal/idp/store.go:154-201 | A token denied by itself is denied exactly until its claim, a token reached by the revocation of its family exactly until its registered expiry, through every continuation in which neither happens again |
| `Provenance.DenialKeepsItsEnd` | internal/idp/store.go:222-229 | Steps that neither deny the token nor revoke the family it is registered under leave the end of its denial alone |
| `Revocation.DenialEnds` | internal/idp/store.go:154-201 | After any step, at any later time: denied exactly until the claim if the step denies the token, until the registered expiry if it revokes the family it is registered under, and as before otherwise |
| `LateCheck.DeadTokenCanPass` | internal/idp/handlers.go:835-862 | The failing input: a valid configuration and a run in which a token of a dead family is refused after its claim has run out and passes once its registered expiry has |
| `Provenance.PresentableAgain` | internal/idp/handlers.go:835-862 | A token that has been presented, of this process or of an earlier one, can be presented again with the same claim at the end of every run that follows |
| `Provenance.CodeBinding` | internal/idp/handlers.go:681-750 | Every family began with a code redeemed by the client that obtained it, at the same registered redirect URI, and for a public client with a well-formed verifier whose digest is the challenge |
| `Provenance.FailedAuthenticationIsHarmless` | internal/idp/handlers.go:503-571 | A token request that proves to be no registered client, by header or by form, changes nothing but the time |
| `Provenance.UserTokenProvenance` | internal/idp/tokens.go:172-201 | Every user access token carries the subject, client and scopes of its family's code; the subject is a user of that client and the roles are that user's; the audience is the configured one or else the client's id; the scopes are built in or allowed for that client and name its own audience; reading the scope claim back gives exactly the granted set |
| `Provenance.RefreshProvenance` | internal/idp/tokens.go:223-232 | Every refresh token, live or consumed, carries the subject, client, scopes and nonce of its family's code |
| `Provenance.AppTokenProvenance` | internal/idp/tokens.go:246-279 | Every client_credentials token speaks for a confidential client that may use the grant, with configured scopes only, the client's audience and configured roles, in the empty family |
| `Provenance.RoleContainment` | internal/idp/clients.go:445-515 | No access token of either kind carries a role that the role definition of its audience does not have |
| `Provenance.ForeignNotIssued` | internal/idp/tokens.go:172-201 | No token of this process ever has the id of a presented token of an earlier one |
| `TokenStore.DropWhere` | internal/idp/store.go:233-239 | The deleting loop keeps exactly the entries that have not expired |
| `TokenStore.Store.DropExpiredLocked` | internal/idp/store.go:222-229 | All five tables are swept, each by its own expiry |
| `TokenStore.Store.RevokeFamilyLocked` | internal/idp/store.go:177-201 | The three loops together are `RevokeFamily`, about which `RevocationIsExact` is proved |
| `TokenStore.Store.DenyFamilyLocked` | internal/idp/store.go:192-200 | The loop moves exactly the family's unexpired ids to the denylist, until their registered expiry |
| `TokenStore.Store.AddCode` | internal/idp/store.go:77-88 | Sweep, then the code under the fresh id with its expiry |
| `TokenStore.Store.TakeCode` | internal/idp/store.go:93-106 | Sweep and remove the code; it is yielded unless it has expired by the second clock reading |
| `TokenStore.Store.AddRefresh` | internal/idp/store.go:108-119 | Sweep, then the entry under the fresh id with its expiry |
| `TokenStore.Store.TakeRefresh` | internal/idp/store.go:124-143 | Sweep; a consumed token revokes its family and is forgotten, a live one is consumed and yielded unless it has expired |
| `TokenStore.Store.RegisterJti` | internal/idp/store.go:147-151 | The id is recorded with subject, family and expiry |
| `TokenStore.Store.DenyJti` | internal/idp/store.go:154-158 | The id is denied until the given time |
| `TokenStore.Store.IsDeniedJti` | internal/idp/store.go:161-165 | True exactly strictly before the end of a denial |
| `TokenStore.Store.RevokeToken` | internal/idp/store.go:207-219 | A code is dropped; a live or consumed refresh token takes its family with it |
| `Handlers.CompleteAuthorize` | internal/idp/handlers.go:426-471 | A code is returned if and only if an id can be drawn, the request names a registered client and one of its redirect URIs, asks for a code, has an S256 challenge unless the client is confidential, asks only for built-in scopes and the client's own, and the password is that of the client's user of that name; the stored code says what the request said and lives ten minutes; a refused login leaves the store unchanged, and a missing id leaves it swept |
| `Policy.AuthorizeIff` | internal/idp/server.go:175-185 | An authorization succeeds, for the user it names, exactly for such a request |
| `Origins.EveryCodeWasGranted` | internal/idp/handlers.go:454-464 | Every code in the store of a run, and every code that a family began with, was made by an authorization of that run whose password was its subject's, with that request's client, redirect URI, challenge, nonce and scopes |
| `Origins.CodesShrink` | internal/idp/store.go:77-106 | Only an authorization adds a code |
| `Handlers.HandleCodeGrant` | internal/idp/handlers.go:681-724 | Tokens are returned if and only if everything can be drawn and the request proves its client, the code is live, the client and the nonempty redirect URI are the code's, and there is no challenge or the well-formed verifier's digest is it under a method that is S256 or absent; the access token is the user's, was issued under the drawn id, and the refresh token returned is in the store with the code's identity and the configured lifetime; whatever other requests do between the sections, the store is left as a valid interleaved run leaves it |
| `Answers.CodeGrantIff` | internal/idp/handlers.go:666-750 | Taking and checking the code goes through exactly under these conditions on request and store |
| `Handlers.ValidateCodeGrant` | internal/idp/handlers.go:730-750 | Accepts if and only if client and nonempty redirect URI are the code's, and there is no challenge or the well-formed verifier's digest is it under a method that is S256 or absent |
| `Handlers.HandleRefreshGrant` | internal/idp/handlers.go:782-826 | Tokens are returned if and only if everything can be drawn and the request proves the client of a refresh token that is live at both clock readings and has not been redeemed; the access token is the user's, was issued under the drawn id, and the refresh token returned is in the store with the old one's identity and the configured lifetime; a redeemed token and somebody else's are refused and leave no live refresh token of their family; whatever other requests do between the sections, the store is left as a valid interleaved run leaves it |
| `Answers.RefreshGrantIff` | internal/idp/store.go:124-143 | Taking the refresh token goes through for the client exactly under these conditions on request and store |
| `Answers.ReusedCuts` | internal/idp/store.go:128-132 | A report of reuse leaves no live refresh token of the family, and the presented token is forgotten |
| `Handlers.HandleClientCredentialsGrant` | internal/idp/handlers.go:640-660 | A token is returned if and only if an id can be drawn and the request proves a confidential client that lists the grant and asks for everything or for one configured scope; it has the client's own subject, audience, roles and scopes and is registered outside any family; a refusal leaves the store unchanged |
| `Answers.AppGrantIff` | internal/idp/clients.go:614-630 | The grant goes through exactly under these conditions, with these scopes |
| `Answers.UserAccessIs` | internal/idp/tokens.go:172-201 | A user token has the identity's subject, family and scopes, the configured audience or else the client's id, exactly the roles of the user's record, and expires after the configured lifetime, rounded down to the second in its claim |
| `Answers.AppAccessIs` | internal/idp/tokens.go:246-263 | An app token has the client's id as subject, its audience, its configured roles, the granted scopes and the same lifetime |
| `Handlers.AppGrantRuns` | internal/idp/handlers.go:640-660 | Grant, other requests and registration are a valid run, and where it ends |
| `ProtocolFrames.StepFrame` | internal/idp/store.go:77-229 | What every event does to the clock and the history, and that it moves no request but its own |
| `Handlers.IssueTokens` | internal/idp/tokens.go:172-235 | What is left in the store and returned for every failure between signing, registering and storing, and what the access token and the stored refresh token contain |
| `Handlers.IssueRuns` | internal/idp/tokens.go:172-235 | Every way an issuance can go, with other requests at each free lock, is a valid run of sign, register, store, sweep and abort events among theirs |
| `Handlers.CodeGrantRuns` | internal/idp/handlers.go:681-750 | Every way a code grant can go, with other requests at each free lock, is a valid run, and where it ends |
| `Handlers.RefreshGrantRuns` | internal/idp/handlers.go:782-826 | The same for a refresh grant, with the revocation on a client mismatch |
| `Handlers.RevokePresentedToken` | internal/idp/handlers.go:1128-1144 | A verified token that is not denied becomes denied exactly until its expiry claim; an unverifiable one is dropped if it is a code and leaves no live refresh token of its family if it is a refresh token, live or redeemed; with whatever other requests do in between, the call is a valid run of protocol events |
| `Handlers.RevokeRuns` | internal/idp/handlers.go:1128-1144 | Parse, check and deny, or an opaque revocation, with other requests in between, are a valid run, and where it ends; the token may be one of an earlier process presented before |
| `Handlers.EndSession` | internal/idp/handlers.go:1160-1172 | A session claim leaves no live refresh token of its family and denies the family's unexpired registered tokens; without one nothing changes |
| `Policy.AuthenticationIsProof` | internal/idp/handlers.go:503-571 | A request is taken to come from a client exactly when the client is registered and the Basic header or the form proves it |
| `Policy.ValidateScopesFor` | internal/idp/handlers.go:182-190 | Accepts exactly when every requested scope is built in or allowed for the client |
| `Policy.ValidPkceVerifier` | internal/idp/handlers.go:246-270 | Accepts exactly 43 to 128 unreserved characters, as section 4.1 of RFC 7636 has it |
| `Policy.ResolveScopes` | internal/idp/clients.go:614-630 | No scope or the default scope of the own audience gives every configured scope, any other request exactly the one configured scope it names, and everything else is refused |
| `Policy.UserRolesContained` | internal/idp/tokens.go:71-85 | An accepted file bounds the roles of every user of a client by its audience's definition |
| `Policy.AppRolesContained` | internal/idp/tokens.go:246-263 | The same for the roles of app tokens |
| `Policy.GrantedScopeIsOwn` | internal/idp/clients.go:300-318 | A scope that can be granted is built in or names the client's own audience |
| `Clients.ValidateUser` | internal/idp/users.go:38-62 | Accepts exactly users with a trimmed name, a bcrypt hash and distinct trimmed roles |
| `Clients.ValidateUserSlice` | internal/idp/users.go:66-79 | Accepts exactly lists of valid users with distinct names |
| `Clients.ValidateGrants` | internal/idp/clients.go:253-292 | Accepts exactly known, distinct grant types, with client_credentials and its scopes only together and only for confidential clients |
| `Clients.ValidateCcRoles` | internal/idp/clients.go:229-247 | Accepts exactly distinct plain roles, and only with the client_credentials grant |
| `Clients.CutIsAuthority` | internal/idp/clients.go:300-318 | Cutting at the first slash and comparing the head is membership in the audience's own scopes |
| `Clients.ValidateAllowedScopes` | internal/idp/clients.go:300-318 | Accepts exactly plain scopes of the client's own audience |
| `Clients.ValidateUrls` | internal/idp/clients.go:324-344 | An interactive client has a redirect URI, and every URL of the three lists is acceptable |
| `Clients.ValidateClient` | internal/idp/clients.go:156-223 | Accepts exactly the clients that satisfy identity, profile, URL and user rules |
| `Clients.ValidateClientSlice` | internal/idp/clients.go:520-533 | Accepts exactly lists of valid clients with distinct ids |
| `Clients.ValidateResourceRoles` | internal/idp/clients.go:474-489 | Accepts exactly nonempty lists of distinct plain roles, whatever the audience, and returns their set |
| `Clients.IndexResources` | internal/idp/clients.go:445-463 | Accepts exactly valid definitions of distinct audiences, and maps each to its roles |
| `Clients.ValidateClientRoles` | internal/idp/clients.go:495-515 | Accepts exactly when the client's and its users' roles are defined for its audience, if the audience has a definition |
| `Clients.ValidateResourceRegistry` | internal/idp/clients.go:445-469 | Accepts exactly the registries that contain the roles of every client whose audience they define |
| `Clients.ReadClientsFile` | internal/idp/clients.go:387-423 | A file is accepted exactly when both validations pass |
| `Registry.NewClientRegistry` | internal/idp/clients.go:706-754 | Succeeds exactly for a nonempty list without repeated ids and without interactive clients that have no users, and the index then agrees with the list in file order, also on whether a client is confidential |
| `Registry.NewUserStore` | internal/idp/clients.go:849-862 | For any list the name table has exactly its names, each with the last user of that name |
| `Registry.LookupIsScan` | internal/idp/clients.go:757-759 | Looking up an id answers what scanning the list answers |
| `Registry.UserLookupIsScan` | internal/idp/clients.go:865-868 | For a validated list, looking up a user name answers what scanning the client's users answers |
| `Registry.AudienceAllowed` | internal/idp/clients.go:785-792 | True exactly when some client of the list has one of the audiences |
| `Registry.ClientForAudience` | internal/idp/clients.go:798-805 | The first client in file order with the audience |
| `Registry.AnyClientCredentials` | internal/idp/clients.go:772-779 | True exactly when some client of the list allows the grant |
| `Registry.DelegatedScopes` | internal/idp/clients.go:815-827 | The order-preserving de-duplication of all allowed scopes in file order |
| `Registry.UserCount` | internal/idp/clients.go:831-837 | The number of different user names of each client, added up; for validated lists that is the number of users |
| `KeyLifecycle.RingIsWellFormed` | internal/idp/key.go:130-234 | After any interleaved history from an empty or legacy directory the ring is unreadable, or it has distinct kids and files and exactly one active entry, the last; if each ring put in place was made from the one it replaced it is readable, and a later start succeeds and publishes a kid if and only if its entry is active, or retiring without a horizon before the time of the start |
| `KeyStart.PublishedExactly` | internal/idp/key.go:170-234 | A start on a good ring publishes a kid if and only if its entry is active, or retiring without a horizon before now, and removes the file of every other entry |
| `KeyStart.PruneIsExact` | internal/idp/key.go:170-199 | Pruning refuses exactly incomplete entries, unknown states and repeated kids, and drops exactly the retiring entries whose horizon is before now, with their files |
| `KeyStart.StartSucceedsIff` | internal/idp/key.go:130-234 | A start on any ring succeeds if and only if every entry is complete, in a known state and under its own kid, one entry is active, and every key that is not pruned is there and fits its kid, where retiring keys may be lost |
| `KeyLifecycle.StepKeepsListedIff` | internal/idp/key.go:388-431 | Whatever is in progress, a step keeps every listed key in the ring if and only if it does not replace the ring or replaces it with one made from it |
| `KeyRetention.SigningKeySurvivesIff` | internal/idp/key.go:388-431 | When the ring is replaced, before any horizon has passed, a start finds the key that signed before if and only if the new ring was made from the one it replaces |
| `KeyOverlap.LostUpdate` | internal/idp/key.go:388-431 | The failing input: on every good directory, for any two new keys, two rotations that read the same ring and finish one after the other leave no start that publishes the first key, although a server that started in between signs with it |
| `KeyOverlap.EmptiedRing` | internal/idp/key.go:520-544 | The second failing input: on every good directory, a rotation that opens the shared temporary file before another one renames it leaves a ring on which every start fails |
| `KeyOverlap.AloneIsOrderly` | internal/idp/key.go:388-445 | On a directory that holds a key, a rotation with only starts in between, wherever it or they stop, replaces the ring only with one made from it |
| `KeyOverlap.OneRotation` | internal/idp/key.go:388-431 | Stopping the one rotation after any number of its file operations leaves what these operations make, and the next start loads exactly the key set from before unless all six are done |
| `KeyOverlap.GosRun` | internal/idp/key.go:494-544 | The operations of an undisturbed rotation, one after the other, and the ring they put in place |
| `KeyLifecycle.CrashConsistency` | internal/idp/key.go:388-431 | Any number of rotations, interleaved in any way and stopped between any two file operations, leave a directory whose next start loads exactly the key set from before as long as none has replaced the ring, which is a single operation |
| `KeyLifecycle.OrderlyKeepsDir` | internal/idp/key.go:170-234 | A step that does not replace the ring, or with one made from it, keeps every key whose horizon has not passed in place |
| `KeyRetention.RetentionSafety` | internal/idp/key.go:170-234 | A token signed by the key that was active when a ring made from the one in place replaced it, and expiring within that rotation's horizon, finds its key in the set that every server started later and before that expiry loads and keeps, through any interleaved rotations, restarts and crashes in which each ring put in place was made from the one it replaces |
| `KeyRetention.DefaultRetentionSafety` | internal/idp/config.go:201-218 | With the default horizon, counted from when the rotation read the ring, this covers tokens signed by the retired key up to the refresh lifetime and five minutes after that |
| `KeyRetention.HorizonIsSet` | internal/idp/key.go:388-405 | The horizon of a rotation is the retention after the time it read the ring, whatever happens later |
| `KeyRetention.PublishedExactlyUntilHorizon` | internal/idp/key.go:170-234 | After a ring made from the one in place has replaced it, through any history in which each ring put in place was made from the one it replaced, a start publishes the key that signed before if and only if the rotation's horizon has not passed |
| `KeyRetention.NewRingIsExact` | internal/idp/key.go:388-425 | A rotation's ring: what was active retires at its horizon, what was retiring keeps its own, and the new key is active at the end under its own file |
| `KeyRetention.RotationRetains` | internal/idp/key.go:474-488 | Putting in place a ring made from the one there lists the key that signed before as retiring until that rotation's horizon, with its file in place |
| `KeyRetention.RetainedStep` | internal/idp/key.go:170-199 | Until the horizon no start and no step of any rotation, finished or not, gives a retained key up, unless it replaces the ring with one not made from it |
| `KeyRotationSteps.StepKeeps` | internal/idp/key.go:388-445 | Every operation of every rotation and every start, in every interleaving, keeps the invariant on keys, rings and open files |
| `KeyRotationSteps.GoKeeps` | internal/idp/key.go:494-544 | The same for the six file operations, with files that are renamed while others have them open |
| `KeyRotationSteps.StartGone` | internal/idp/key.go:170-199 | A start, also one that stops after any number of entries, has removed only files that are due for removal |
| `KeyLifecycle.StartKeepsDir` | internal/idp/key.go:130-199 | A start, finished or not, keeps every key whose horizon has not passed in place |
| `KeyLifecycle.StartSigns` | internal/idp/key.go:203-234 | A start makes active the key of the last ring entry, or the legacy key |
| `KeyLifecycle.StartFinds` | internal/idp/key.go:668-676 | A start publishes under its kid every key it keeps |
| `KeyRingProofs.StartPublishes` | internal/idp/key.go:130-164 | A start on a good ring succeeds and publishes the keys it keeps in ring order, the last one active, whatever earlier starts pruned |
| `KeyRingProofs.RotationRuns` | internal/idp/key.go:388-431 | A rotation on a good directory with a new key is not refused, and the operations it performs |
| `KeyDirectory.RetireRingKeys` | internal/idp/key.go:474-488 | In place, every active entry becomes retiring at the horizon and retiring ones keep theirs; refused exactly for an unknown state |
| `KeyDirectory.KeyDir.PruneRetiredKeys` | internal/idp/key.go:170-199 | The loop keeps exactly the entries that are not retiring with a horizon before now, removes exactly the files of the others, and refuses the same rings as `Prune` |
| `KeyDirectory.KeyDir.LoadPublishedKeys` | internal/idp/key.go:203-234 | The loop loads what `LoadPublished` loads, and fails on the same rings |
| `KeyDirectory.KeyDir.KeySetFromDir` | internal/idp/key.go:130-164 | Pruning and loading together are the start that the theorems are about |
| `KeyDirectory.KeyDir.Save` | internal/idp/key.go:494-544 | Create, write and rename a temporary file, in that order |
| `KeyDirectory.KeyDir.RotateKeys` | internal/idp/key.go:388-445 | An undisturbed rotation performs all its file operations or, when refused, none |
| `KeyDirectory.FindVerifyKey` | internal/idp/key.go:668-676 | The first published key with the token's kid |
| `Limiter.SweepIsInvisible` | internal/idp/ratelimit.go:35-79 | For every sequence of calls the swept limiter answers as one that never deletes a bucket |
| `Limiter.KeysAreIndependent` | internal/idp/ratelimit.go:35-79 | One key's answers are a function of that key's own attempts |
| `Limiter.DisabledAdmitsAll` | internal/idp/ratelimit.go:35-38 | A limit of zero or less admits everything |
| `Limiter.TokensPayForAdmissions` | internal/idp/ratelimit.go:50-60 | Every admission is paid for by a token that was in the bucket or flowed in |
| `Limiter.WindowBound` | internal/idp/ratelimit.go:42-60 | In any stretch of calls spanning at most D seconds a key is admitted at most perMinute + perMinute * D / 60 times |
| `Limiter.Progress` | internal/idp/ratelimit.go:42-60 | An attempt at least 60 / perMinute seconds after the key's previous ones is admitted |
| `Limiter.LoginLimiter.SweepLocked` | internal/idp/ratelimit.go:65-79 | The deleting loop removes exactly the buckets idle for more than two minutes, when a sweep is due |
| `Limiter.LoginLimiter.AllowAttempt` | internal/idp/ratelimit.go:35-61 | An attempt is admitted if and only if the bucket that is still there, or else a full one, holds a token once it has been filled up since its last attempt; it then pays one; a due sweep drops the buckets idle for more than two minutes and leaves the others |
| `LimiterExact.AdmittedExactly` | internal/idp/ratelimit.go:35-61 | Over every sequence of calls: an attempt is admitted if and only if, for every stretch of the key's earlier attempts ending just before it, the admissions in the stretch number at most perMinute - 1 plus the inflow since the stretch began |
| `LimiterExact.Burst` | internal/idp/ratelimit.go:42-60 | A new key's first perMinute attempts are all admitted, at whatever times, and so are perMinute attempts after a minute of rest |
| `LimiterExact.SweepIsExact` | internal/idp/ratelimit.go:65-79 | A sweep happens exactly at 1024 buckets or after a minute, and drops exactly the buckets idle for more than two minutes |
| `Csrf.IssuedTokenVerifies` | internal/idp/csrf.go:39-66 | For any parameters, nonempty nonce and action free of the separators, an issued token verifies for its own form if and only if it has not expired |
| `Csrf.AcceptanceBinds` | internal/idp/csrf.go:50-87 | Under an ideal MAC an accepted token was issued for a form with the same action, parameter fingerprint and nonce fingerprint, and has not expired |
| `Csrf.AcceptanceBindsRequest` | internal/idp/handlers.go:68-79 | Under an ideal MAC and digest an accepted form has, value for value, the client, redirect URI, challenge and other parameters of a form that was issued |
| `Csrf.CoveredParams` | internal/idp/handlers.go:34-37 | The token covers exactly the nine OAuth parameters |
| `Csrf.PayloadParts` | internal/idp/csrf.go:39-46 | Splitting an issued payload gives back its four pieces |
| `Csrf.ParseFormat` | internal/idp/csrf.go:79-83 | The decimal expiry reads back as the number it was, and holds no separator |
| `Csrf.RepostKeepsFingerprint` | internal/idp/handlers.go:39-79 | Posting the hidden fields gives the fingerprint of the original request if and only if each OAuth parameter present occurs once and is not empty |
| `Csrf.EmptyStateIsRefused` | internal/idp/handlers.go:39-79 | The failing input: signing in to a complete request whose state is present and empty is refused |
| `Csrf.RetryMatches` | internal/idp/handlers.go:426-448 | A form rendered again from what was posted always matches, whatever the first request was |
| `Csrf.OtherParamsAreRefused` | internal/idp/csrf.go:50-87 | A token is refused for parameters with another fingerprint |
| `Csrf.PostedHidden` | internal/idp/handlers.go:39-47 | The posted hidden fields are the nonempty first values of the request |
| `Csrf.OauthParamsOf` | internal/idp/handlers.go:68-79 | The loop selects the OAuth parameters with all their values |
| `Csrf.OauthHiddenFields` | internal/idp/handlers.go:39-47 | The loop renders the nonempty first values in key order |
| `Scopes.ScopeRoundTrip` | internal/idp/handlers.go:1006-1013 | For every raw scope parameter, parsing the joined form of its scopes gives their order-preserving de-duplication, so the granted set is what a reader of the token sees |
| `Scopes.RoundTripOfWords` | internal/idp/tokens.go:312-324 | The same for every nonempty list of words |
| `Scopes.DedupOrdersByFirstOccurrence` | internal/idp/tokens.go:312-324 | De-duplication repeats nothing and keeps values in the order of their first occurrence |
| `Scopes.Parse` | internal/idp/server.go:296-311 | The loop parses as the specification does, with openid for a blank parameter |
| `Scopes.JoinLoop` | internal/idp/tokens.go:312-324 | The loop joins the distinct nonempty scopes |
| `Text.FieldsOfJoin` | internal/idp/tokens.go:323 | Splitting a join of words at blanks gives the words back |
| `Text.FieldsIff` | internal/idp/server.go:300 | Splitting gives words exactly as the text is laid out from them with white space around and between, which it is in one way only |
| `Text.TrimIsExact` | internal/idp/clients.go:616 | Trimming takes white space off both ends, and all of it |
| `Scopes.ParseScopesIff` | internal/idp/server.go:296-311 | The scopes are the words of the parameter in order, or openid alone when it holds nothing but white space |

## Left out

- HTTP plumbing, HTML, CORS and security headers, cookies, logging, static files, discovery and health: input, output and presentation.
- RSA, SHA-256, HMAC, bcrypt, base64, JSON and URL parsing: functions given from outside, with the properties stated where they are used.
- Timing equalization and constant-time comparison: a comparison is equality.
- Error texts, and which of several errors a validator reports first: only acceptance or refusal is modelled.
- The address that the limiter is keyed by (the forwarded-address walk): a key is any string.
- Floating-point rounding in the limiter: token counts are exact reals.
- The `scp` claim, profile claims, id_token contents and introspection output; an id_token only appears as something whose issuance may fail.
- The token store across restarts: it is in memory, and a run is one process lifetime.
- First-start key generation among several processes, and the waiting for a peer's key: a first start that succeeds is one step.
- A start reads the ring and the key files in one step, or stops on the way; it is not interleaved with a rotation operation by operation.
- The creation time in ring entries, a removal or write that fails, and the removal of the temporary file after a failed write: file operations succeed or the process stops.
- Who may call `/revoke`: any caller may, with any token, and a logout may name any family, also one whose id_token nobody holds yet, so the guarantees hold against more callers than the code admits; no counterexample makes use of that.
- The audience check of the resource endpoints: acceptance here is signature, expiry and denylist, which is more than the endpoints accept.
- The prompt and response_mode checks of the authorization endpoint: they act on the request that renders the form, not on the posted form that issues a code.
- Any gating of the code and refresh grants by `grant_types`: the code has none, only the client_credentials handler consults the list.
- Index entries for CORS origins, and the clientctl tool, which saves client lists without the role registry.
- Finality.RevocationIsFinalIff: replaces the unqualified claim that a revoked family is dead, which is false; the counterexample is `RevivedFamily.RevokedFamilyCanRevive`.
- Limiter.WindowBound: is about a positive limit; a limit of zero or less admits everything, which `Limiter.DisabledAdmitsAll` states.
