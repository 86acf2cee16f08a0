# dex: key rotation, grants and storages in Dafny

dex is an OpenID Connect provider. Several server instances share one storage that offers atomic
operations on single objects and nothing larger. What a client may rely on (a token can be verified
while it lives, a code is exchanged once, a revoked refresh token stays revoked) must therefore
survive every interleaving of many-step handlers. This project models those handlers and the
storages below them, and proves what every run keeps.

Protocols are total step functions: `Step(state, event)` for one storage call, cache access or clock
reading, and `Run` for a sequence of events from the initial state. A theorem about a run is about
every sequence of events, so about every interleaving of any number of handlers on any number of
instances. Random IDs, connector answers and storage failures are chosen by the events.

| file | models |
|---|---|
| `Rotation.dfy` | the signing-key record and the updater that rotates it, compacting in place |
| `KeyProtocol.dfy`, `KeySafety.dfy` | racing rotators, per-instance key caches, signing and publishing; what runs keep |
| `KeyRuns.dfy`, `KeySchedule.dfy`, `KeyLateness.dfy`, `KeyStaleness.dfy` | pieces of runs; when keys are rotated; what a late commit costs; how long a /keys response holds |
| `OAuth2.dfy` | validation of authorization requests, ID tokens, the authorization response |
| `Grants.dfy`, `GrantSafety.dfy`, `GrantIdentity.dfy` | request, code, refresh token and revocation, one storage call at a time; what interleavings keep; whose grants they are |
| `Handlers.dfy`, `HandlerRuns.dfy`, `HandlerOutcomes.dfy`, `HandlerAgreement.dfy` | the same handlers run whole: imperative form, correspondence of references and tokens, garbage collection; what callers get; agreement of the two views |
| `DanglingReferences.dfy` | what a re-login that fails halfway leaves behind |
| `ConnectorCache.dfy` | the cache of opened connectors |
| `Etcd.dfy` | the etcd storage against an atomic map and against the memory storage |
| `StaticOverlay.dfy` | static clients, passwords and connectors laid over a storage |
| `Base32.dfy`, `Kubernetes.dfy` | object names computed from keys, and a storage filed under them |
| `Migrate.dfy` | concurrent schema migration |

Five properties one might expect are false of the code, and the project says exactly how far they hold.

- *A key is published as long as a token it signed lives.* The updater stamps the retired key with a
  clock reading taken before the update commits, and the key is dropped by the first rotation whose
  clock is more than a token's lifetime past that stamp. So at any point of any run the key of a token
  is published if and only if it is not retired or no rotation has outrun its stamp like that
  (`KeySafety.TokenVerifiableExactly`, `KeySafety.TokenVerifiableWithin`), and a dropped key does not
  come back (`KeySafety.DroppedForGood`). Under a storage that holds its lock from the read of an update
  to the commit no key is fetched after its stamp, and the property holds
  (`KeySafety.TokenVerifiableForLife`). With an optimistic storage a key can be fetched after its stamp;
  `KeyLateness.LateCommitShortensLife` is a run in which the property fails.
- *A /keys response is accurate until its max-age lapses.* The max-age is at least two minutes, also when
  the next rotation is nearer. At any point of any run a response stays accurate until it lapses, whatever
  happens, if and only if it has lapsed or its record is still stored and not due before then
  (`KeyStaleness.AccurateExactly`); for a response just given, if and only if its max-age was not raised
  (`KeyStaleness.RaisedResponsesGoStale`, with a continuation that makes it stale in
  `KeyStaleness.ResponseGoesStale`).
- *Garbage collection cannot be noticed.* It cannot in approvals, exchanges, refreshes and revocations
  (`HandlerRuns.GarbageCollectionIsInvisible`). The login pages do not check the expiry of a request, and
  answer differently once it is collected: collection is unnoticed wherever it happens if and only if no
  step of a login comes after its request has expired (`HandlerRuns.CollectionNoticedExactly`,
  `HandlerRuns.CollectionIsNoticed`).
- *Every reference names a stored token.* It does after any whole handlers (`HandlerRuns.RunsStayMatched`).
  A re-login deletes the former token before it updates the session, and if that update fails the
  reference is left dangling (`DanglingReferences.StuckIsReachable`). Then every exchange for a refresh
  token of that user, connector and client is refused until the reference is revoked, and nothing but
  that revocation frees it (`DanglingReferences.OnlyRevocationFrees`,
  `DanglingReferences.StuckLoginsAreRefused`).
- *Different offline sessions have different Kubernetes names.* The two IDs are hashed without a
  separator, so names collide exactly when the hash does on the joined IDs
  (`Kubernetes.OfflineTokenNamesCollide`), and some pairs collide under every hash
  (`Kubernetes.SomeSessionsAlwaysCollide`). What holds is that a successful operation acted on the
  requested session.

In two places a comment in the source and the code disagree; the model follows the code. A comment in
`sendCodeResponse` says that implicit and hybrid requests with the out-of-band redirect URI were
rejected earlier, but validation rejects only response type `token` there
(`OAuth2.HybridOutOfBand` is an accepted request whose ID token is never sent). The comments around
`idToName` speak of hash collisions, but the hash is never fed the ID, and names of clients and
passwords cannot collide.

## Model

| member | source | states |
|---|---|---|
| `Rotation.UnexpiredMembers` | server/rotation.go:141-153 | compaction keeps a verification key if and only if it is listed and has not expired |
| `Rotation.KeyRecord.constructor` | storage/storage.go:316-335 | a store no rotation has touched holds no keys and is due |
| `Rotation.KeyRecord.Rotate` | server/rotation.go:132-174 | rotates exactly when due: the new key signs, the unexpired verification keys stay, the old signing key joins them for a token's lifetime from the first reading, and the next rotation is a period after the second reading; otherwise touches nothing; a reader still holding the old slice finds the unexpired keys at its front |
| `Rotation.KeyRecord.Compact` | server/rotation.go:145-153 | the loop over the backing array leaves the unexpired keys, in order, as the truncated slice |
| `Rotation.KeyRecord.Append` | server/rotation.go:166-166 | appending reuses or replaces the backing array and either way adds one entry at the end, leaving the old front alone |
| `KeyProtocol.KeyCacher.GetKeys` | server/server.go:389-404 | answers the storage or an unlapsed cached record, the storage's answer whenever the cache is current; caches only records with time left |
| `KeySafety.RunsAreSafe` | server/rotation.go:98-180 | every reachable state: each copy of the record is the stored one or due for rotation, key IDs are never reused, every fetched signing key is the current or a retired one, the list of retired keys is exact, stamped and spaced |
| `KeySafety.StepCoherent` | server/server.go:389-404 | every event keeps each key copy, cached or in flight, equal to the stored record or due |
| `KeySafety.ListedAfter` | server/rotation.go:145-167 | after a rotation a key is listed if and only if it was just demoted, or was listed and has not expired |
| `KeySafety.CommitKeepsListing` | server/rotation.go:141-167 | every commit keeps the list exact: of all keys ever retired it holds those, and only those, that no later rotation's clock has outrun |
| `KeySafety.KeyPublishedExactly` | server/handlers.go:67-74 | in every run, every instance publishes a retired key if and only if no later rotation read a clock more than a token's lifetime past the reading that retired the key |
| `KeySafety.TokenVerifiableExactly` | server/oauth2.go:269-285 | in every run, every instance publishes a token's key if and only if the key is not retired or no later rotation has outrun it so |
| `KeySafety.KeyPublishedWithin` | server/rotation.go:155-173 | for a rotation period and token lifetime that are not negative: published if and only if no stamp at all exceeds the key's own by more than the lifetime |
| `KeySafety.TokenVerifiableWithin` | server/oauth2.go:269-285 | the same condition for the key of any issued token |
| `KeySafety.TokenStaysVerifiable` | server/rotation.go:156-165 | hence, at every instant of a token's life, every instance publishes its key, short only of the gap between fetch and stamp and of the time by which the fetch came after the retiring updater's clock reading |
| `KeySafety.DroppedForGood` | server/rotation.go:145-153 | a retired key that one instance does not publish is published by none at any later point of the run |
| `KeySafety.ExpiredKeysAreDropped` | server/rotation.go:141-153 | a rotation whose clock is past a retired key's stamp plus the token lifetime ends the key's publication at every instance, at once and for the rest of the run |
| `KeySafety.LockedRunsStayInOrder` | storage/memory/memory.go:384-392 | over a storage that runs updaters under its lock no key is fetched, from the storage or from any cache, after the clock reading that retires it |
| `KeySafety.TokenVerifiableForLife` | server/rotation.go:156-165 | over such a storage a token can be verified for its whole life, short only of the gap between fetching its key and stamping it |
| `KeyLateness.LateCommitShortensLife` | storage/etcd/etcd.go:497-526 | a run over an optimistic storage in which a token's key is published nowhere before the token expires |
| `KeySafety.CacheIsTransparent` | server/server.go:389-404 | in every reachable state GetKeys through any cache equals the storage read |
| `KeySafety.CacheHitReadsStorage` | server/server.go:390-393 | an operation whose interleaved cache check hits has the record stored at that instant |
| `KeySafety.PublishedKeysStayAccurate` | server/handlers.go:82-87 | a /keys response whose max-age was not raised to the floor equals the server's answer until the max-age lapses |
| `KeyStaleness.AccurateExactly` | server/handlers.go:82-87 | at any point of any run, a response given before agrees with every instance in every continuation until it lapses, if and only if it has lapsed, or its record is still stored and not due before the lapse |
| `KeyStaleness.RaisedResponsesGoStale` | server/handlers.go:83-85 | a response just given stays accurate in every continuation until it lapses if and only if its max-age was not raised to the floor |
| `KeyStaleness.ResponseGoesStale` | server/handlers.go:83-85 | otherwise there is a continuation, ending before the lapse, in which every instance answers something else |
| `KeyStaleness.UnlapsedResponseVerifies` | server/handlers.go:67-87 | over a storage with a lock, an unlapsed response that was not raised lists the key of every token in its life, short of the gap between fetch and stamp |
| `KeyStaleness.MaxAgeOfResponses` | server/handlers.go:82-87 | in every run, the max-age of every response is what is left until the next rotation in whole seconds, and 120 if less than two minutes are left |
| `KeyStaleness.ResponsesLapse` | server/handlers.go:82-87 | an unraised response lapses less than a second before its record is due and not after, a raised one after two minutes |
| `KeyStaleness.ResponseIsGiven` | server/handlers.go:55-74 | a request that has got a record answers that record as of the present, if it has a signing key |
| `KeySafety.RotationTidy` | server/rotation.go:133-173 | rotation keeps expiries spaced by the rotation period and their span within the token lifetime |
| `KeySafety.KeyListStaysShort` | server/rotation.go:133-173 | however many instances race, at most floor(V/F)+1 verification keys, expiries at least F apart |
| `KeySchedule.CommitsAreScheduled` | server/rotation.go:169-173 | in every run, a rotation that commits installs its own key and is next due exactly a rotation period after its second clock reading, for every strategy |
| `KeySchedule.NotReplacedBeforeDue` | server/rotation.go:135-139 | in every run, a record is the stored one at least until it is due |
| `KeySchedule.KeptForAPeriod` | storage/storage.go:331-334 | however many instances try, a record is kept at least a rotation period from that reading |
| `KeySchedule.ReplacedAfterAPeriod` | server/rotation.go:98-106 | and some continuation replaces it just then, or at once if that has passed |
| `KeyRuns.ReadsAreCached` | server/server.go:395-403 | a record read before it is due ends up in the cache of the instance that read it |
| `KeyRuns.CachedRecordsAreServed` | server/server.go:390-393 | from then on, until it is due, operations of that instance get it without reading the storage |
| `KeyRuns.NotDueNotRotated` | server/rotation.go:103-105 | a rotator that finds the record not yet due makes no key |
| `OAuth2.CheckScopes` | server/oauth2.go:412-437 | stops with a storage error if and only if some named peer cannot be read; otherwise collects exactly the unrecognized and the untrusted scopes, in order |
| `OAuth2.CheckResponseTypes` | server/oauth2.go:448-469 | no error if and only if all types are known and enabled; the error is about the first bad one; flags say which types occur |
| `OAuth2.ValidateScopes` | server/oauth2.go:412-446 | no error if and only if openid is asked for and every other scope is standard or names a readable, trusting peer; which of the four errors is reported, with all scopes it is about |
| `OAuth2.ValidateResponseTypes` | server/oauth2.go:448-495 | no error if and only if the types are non-empty, known and enabled, not token alone, with a nonce where no code is asked for, and not token with the out-of-band URI; which error is reported otherwise |
| `OAuth2.StandardScopes` | server/oauth2.go:418-421 | which scopes need no peer |
| `OAuth2.PeersByScope` | server/oauth2.go:509-514 | a scope names a peer if and only if it is the prefix followed by that peer's ID |
| `OAuth2.TrustIsListed` | server/oauth2.go:516-534 | a client is trusted by itself and by exactly those readable clients that list it; only an unreadable peer is an error |
| `OAuth2.AllowedScopes` | server/oauth2.go:417-444 | which scopes a client may ask for, by their spelling: a standard one, its own audience, or that of a readable client that lists it |
| `OAuth2.AcceptsExactly` | server/oauth2.go:392-495 | what is accepted, spelled out: client, redirect URI, each scope, each response type, nonce and out-of-band rule |
| `OAuth2.ParseAuthorizationRequest` | server/oauth2.go:375-507 | accepts exactly those requests, copying each parameter; refuses a redirect URI if and only if it is not registered for a confidential client, or neither out-of-band nor on localhost for a public one; which error any other request gets; errors go to the redirect URI if and only if it was validated |
| `OAuth2.CollectAudience` | server/oauth2.go:315-346 | succeeds if and only if all named peers trust the client; the audience is the named peers in order, and each claim is released if and only if its scope is present |
| `OAuth2.Addressed` | server/oauth2.go:348-361 | the client joins the audience, and is authorizing party if and only if peers were named |
| `OAuth2.NewIDToken` | server/oauth2.go:268-372 | succeeds if and only if there is a key and all peers trust; the audience, in order, is the peers named by the scopes and the client; azp; each optional claim exactly when its scope is there; subject, nonce, signing key and times |
| `OAuth2.TokensAreIssued` | server/oauth2.go:275-285 | a token so stamped, made from the keys an operation got, is the token the key protocol issues for it |
| `OAuth2.AudienceTrustsClient` | server/oauth2.go:516-534 | every audience member but the client lists the client as trusted peer |
| `OAuth2.AcceptedRequestIsTrusted` | server/oauth2.go:417-446 | against an unchanged client table the trust check cannot fail for an accepted request or fewer scopes |
| `OAuth2.ResponsesAnswer` | server/handlers.go:493-596 | a redirect carries each artefact exactly when requested and, as code, the last one stored; the out-of-band page appears only for its redirect URI and shows the one code stored; an error only when a call fails |
| `OAuth2.CodesStoredExactly` | server/handlers.go:509-533 | a code is stored for exactly those response types that ask for one, can store it, and come before any failing call or page |
| `OAuth2.AcceptedRequestsGetWellFormedRedirects` | server/oauth2.go:454-495 | for every accepted request the query form carries a code, the fragment form a code or an ID token, an ID token alone comes with a nonce and only then with expires_in (sections 3.2.2.1 and 3.3.2.5 of OpenID Connect Core 1.0) |
| `OAuth2.HybridOutOfBand` | server/oauth2.go:490-495 | an accepted request for a code and an ID token with the out-of-band redirect URI, answered by the page with the code alone |
| `GrantSafety.RunsAreSafe` | server/handlers.go:472-971 | every reachable interleaved state: requests, codes and token values spent at most once, references distinct and never revived, grants traced to accepted requests |
| `GrantSafety.StepSpendsOnce` | server/handlers.go:478-486 | every step keeps: what one handler has deleted no other handler has claimed, and it never reappears |
| `GrantSafety.StepSpendsValuesOnce` | server/handlers.go:931-970 | every step keeps: a drawn token value is nobody else's, and a pair once refreshed is not stored |
| `GrantSafety.StepKeepsRefsOnce` | server/handlers.go:759-795 | every step keeps: one reference per token, and retired or unlinked tokens are named by no session |
| `GrantSafety.StepStaysTraced` | server/handlers.go:511-522 | every step keeps: codes, tokens and handlers in flight carry the grant of the request they go back to |
| `GrantSafety.OneResponsePerRequest` | server/handlers.go:473-486 | over all interleavings one authorization request delivers at most one response |
| `GrantSafety.ResponsesAnswerTheirRequests` | server/handlers.go:509-583 | over all interleavings a delivered response carries a code if and only if its accepted request asked for one, and that code goes back to that very request |
| `GrantSafety.OneExchangePerCode` | server/handlers.go:647-675 | over all interleavings one code is exchanged successfully at most once (section 4.1.2 of RFC 6749) |
| `GrantSafety.ExchangesAreRightful` | server/handlers.go:647-661 | a successful exchange came from the request's own client with its redirect URI, the code unexpired at the read (section 4.1.3 of RFC 6749) |
| `GrantSafety.OneRefreshPerValue` | server/handlers.go:931-970 | over all interleavings and failures one pair of refresh ID and value is refreshed at most once |
| `GrantSafety.LostReferenceNeverReturns` | server/api.go:273-308 | a token whose reference was removed or replaced is named by no session ever again, and passes no session check |
| `GrantSafety.LostReferenceEndsRefreshes` | server/handlers.go:949-970 | over all interleavings, once the reference of a token is lost no refresh of it gets past the session check or succeeds, except one that was past the check before |
| `GrantSafety.ReferencesAreOneToOne` | server/handlers.go:949-961 | of the refresh IDs that pass the session check in an interleaved state, two are the same if and only if their tokens agree in user, connector and client |
| `GrantSafety.GrantsComeFromAcceptedRequests` | server/handlers.go:700-713 | every stored code and refresh token has the client, the scopes and the nonce of a request that validation accepted, and that request the parameters of its query |
| `GrantSafety.RefreshesStayWithinTheGrant` | server/handlers.go:847-872 | after any chain of refreshes a refresh is by the client of the accepted request, keeps its nonce, asks within its scopes (section 6 of RFC 6749), and passes the trust check of the client table the request was accepted against, if that table files clients under their IDs |
| `GrantSafety.RefreshesAskFor` | server/handlers.go:847-872 | a refresh asks for the scopes it names, or for all that were granted |
| `GrantSafety.RedirectsAreRegistered` | server/oauth2.go:536-563 | over all interleavings the redirect URI of every delivered response and every exchanged code was registered for the client of the accepted request, or is one a public client may use |
| `GrantIdentity.RunsKeepBelonging` | server/handlers.go:405-971 | every reachable interleaved state: codes, tokens, references and handlers in flight belong to the login their request was approved with |
| `GrantIdentity.CodesBelongToTheirLogin` | server/handlers.go:511-522 | over all interleavings a code has the user, claims and connector of the copy its approval went on with, that request's client, scopes, nonce and redirect URI, and expires 30 minutes after it was stored |
| `GrantIdentity.TokensBelongToTheirLogin` | server/handlers.go:932-947 | over all interleavings a refresh token has the user and connector of its login, exists only for offline access, has the value last given out, and carries what the connector answered in its last refresh, or at the login if there was none |
| `GrantIdentity.ReferencesBelongToTheirLogin` | server/handlers.go:759-795 | over all interleavings a reference is filed under the user, connector and client of its token's login |
| `GrantIdentity.ApprovalsAreOfAcceptedRequests` | server/handlers.go:163-163 | the copy an approval goes on with is of an accepted request, logged in, and lives for a day from its acceptance |
| `Handlers.Server.HandleApproval` | server/handlers.go:435-486 | responds exactly for a logged-in unexpired request, which is deleted even if the response is then an error; otherwise changes nothing |
| `Handlers.Server.RespondByType` | server/handlers.go:509-596 | the loop stores the codes up to the first iteration that ends it, by a failing code or ID token or by the out-of-band page, and sends the response determined by that iteration |
| `Handlers.Server.SendCodeResponse` | server/handlers.go:493-596 | each code stored has the request's client, scopes, nonce, redirect URI, connector and claims and expires in 30 minutes; all other codes stay |
| `Handlers.Server.HandleAuthCode` | server/handlers.go:643-800 | succeeds only for a stored unexpired code of that client and redirect URI when the ID token can be made; deletes the code; gives a refresh token if and only if the connector can refresh and offline access was granted, with the code's grant, claims and connector, named in the session of its user, connector and client; if the session names a token that is missing, the code is spent and the new token rolled back; a code that may not be exchanged changes nothing |
| `Handlers.Server.LinkToSession` | server/handlers.go:724-797 | names the new token in its session and drops the former one; asks for the rollback exactly when the former one is not stored |
| `Handlers.Server.HandleRefreshToken` | server/handlers.go:803-971 | succeeds exactly when the pair, client, scopes and session reference match and the connector and the ID token work; then the token has the new value and the connector's name, email, verification and groups, and its old user, grant and connector; all else is unchanged |
| `Handlers.Server.UnauthorizedScopes` | server/handlers.go:849-864 | lists all requested scopes that were not granted, in order |
| `Handlers.NoneUngranted` | server/handlers.go:866-870 | that list is empty if and only if every requested scope was granted |
| `Handlers.Server.RevokeRefresh` | server/api.go:262-311 | finds exactly the references there are; removes that reference and the token it named, and nothing else |
| `Handlers.Server.GarbageCollect` | storage/memory/memory.go:68-84 | a request or code stays, unchanged, if and only if it has not expired; the counts are those removed, whatever the order of the walk |
| `Handlers.Sweep` | storage/memory/memory.go:70-81 | one loop picks exactly the expired entries and counts each once |
| `HandlerRuns.LoginMatches` | server/handlers.go:698-797 | a login keeps references and tokens in correspondence and never meets a dangling reference |
| `HandlerRuns.RefreshMatches` | server/handlers.go:932-957 | a refresh keeps the correspondence |
| `HandlerRuns.RevokeMatches` | server/api.go:273-308 | a revocation keeps the correspondence, and the token it must delete is stored |
| `HandlerRuns.RunsStayMatched` | server/handlers.go:724-797 | after any calls in any order references and refresh tokens are in bijection, each reference under its token's user, connector and client |
| `HandlerRuns.PerformSimilar` | storage/memory/memory.go:68-84 | a store and the same store without some expired objects answer every call alike, except a step of a login whose request has expired, and stay so related; collecting keeps the relation |
| `HandlerRuns.GarbageCollectionIsInvisible` | server/server.go:406-425 | two runs that differ only in when garbage is collected have the same outcomes, answers of the login pages aside, and the same tokens and sessions; and the same answers of the login pages if every login is over before its request expires |
| `HandlerRuns.CollectionNoticedExactly` | server/handlers.go:213-224 | wherever garbage is collected all outcomes are as without, login pages included, if and only if no step of a login comes after its request has expired |
| `HandlerRuns.CollectionIsNoticed` | server/handlers.go:341-351 | for every run with such a late step, collection just before it changes the outcomes |
| `HandlerOutcomes.LoginRecords` | server/handlers.go:163-164 | from any store: a request, a choice of connector and a login leave that request with that connector and those claims, good for a day, and change nothing else |
| `HandlerOutcomes.ApprovalOutcome` | server/handlers.go:435-528 | from any store: after a request, a choice of connector, a login and some time, an approval is answered if and only if it comes within a day; the codes belong to that login and connector and are good for 30 minutes |
| `HandlerOutcomes.ExchangeOutcome` | server/handlers.go:647-797 | in every reachable store: an exchange succeeds if and only if the code is stored, unexpired and presented by its client with its redirect URI, and the ID token can be made; when it gives a refresh token, and what token is then stored; other codes stay, and so do tokens of other users, connectors and clients |
| `HandlerOutcomes.RefreshOutcome` | server/handlers.go:822-970 | in every reachable store: a refresh succeeds if and only if the value is the current one, presented by the token's client for granted scopes, the connector answers and the ID token can be made; the exact tokens afterwards |
| `HandlerOutcomes.RevocationOutcome` | server/api.go:262-311 | in every reachable store: a revocation succeeds if and only if that user has a token of that connector for that client; afterwards there is none, and all others stay |
| `HandlerOutcomes.CollectionOutcome` | storage/memory/memory.go:68-84 | collection removes exactly the expired requests and codes |
| `HandlerAgreement.ApprovalAlone` | server/handlers.go:435-597 | an approval thread run without interference does what the whole handler does, for every request, every list of response types and every failing call |
| `HandlerAgreement.ExchangeAlone` | server/handlers.go:643-800 | likewise a code exchange, refusals, an ID token that cannot be made and the rollback included |
| `HandlerAgreement.RefreshAlone` | server/handlers.go:803-971 | likewise a refresh, failing connector and ID token included |
| `HandlerAgreement.RevokeAlone` | server/api.go:262-311 | likewise a revocation |
| `HandlerAgreement.ReachableStatesAreDrawn` | server/handlers.go:700-713 | in every state an interleaved run reaches, stored tokens and references have been drawn, as the agreement of code exchanges assumes |
| `HandlerAgreement.AloneRuns` | server/handlers.go:435-971 | the moves of an undisturbed handler are a run of the interleaved model |
| `HandlerAgreement.LoginAlone` | server/handlers.go:226-237 | accepting a request, choosing a connector and logging in are the same in both views |
| `HandlerAgreement.CollectionAlone` | storage/memory/memory.go:68-84 | so is garbage collection, which removes exactly what has expired |
| `DanglingReferences.FailuresRollBack` | server/handlers.go:724-740 | whichever call fails once a new token is stored, the token is deleted again and the handler ends |
| `DanglingReferences.OneFailureSticks` | server/handlers.go:775-795 | in any store with a token to replace, a re-login whose session update fails deletes the former token and its own, changes no session, and so leaves the reference to the former one |
| `DanglingReferences.StuckIsReachable` | server/handlers.go:724-797 | for every accepted request for a code and offline access, a run from the empty store with exactly one failing call ends with such a reference |
| `DanglingReferences.OnlyRevocationFrees` | server/api.go:273-308 | a call frees a stuck reference if and only if it revokes that very reference |
| `DanglingReferences.StuckLoginsAreRefused` | server/handlers.go:775-783 | after any calls without that revocation, every exchange of a code that would give a refresh token for that user, connector and client is refused |
| `ConnectorCache.CacheAgreesWithStorage` | server/server.go:498-521 | under any interleaving with requests and startup, getConnector returns a connector opened from a record with the ID and version it read; where a version determines its record, the connector it would have opened itself |
| `ConnectorCache.HitsOpenNothing` | server/server.go:504-520 | a cached connector of the version that was read is returned as it is, and cache and storage stay as they are |
| `ConnectorCache.Server.OpenAll` | server/server.go:205-220 | startup succeeds if and only if something is listed and every listed record opens, and fills the cache with all of them |
| `ConnectorCache.StartupOpensLast` | server/server.go:216-220 | the cache then holds a connector for each listed ID and no other, opened from the last record listed with that ID |
| `ConnectorCache.Server.GetConnector` | server/server.go:498-521 | succeeds if and only if the record exists and is cached at its version or opens; the result has the record's ID and version and is what the cache then holds |
| `Etcd.RunsAreLinearizable` | storage/etcd/etcd.go:426-526 | every interleaving equals its completed operations run atomically in order of completion, outcomes included, conflicts having no effect |
| `Etcd.CommitLinearized` | storage/etcd/etcd.go:509-524 | a commit at the revision read is the atomic update; at another revision it is a refusal without effect |
| `Etcd.StaleConflicts` | storage/etcd/etcd.go:514-524 | the commit of an update whose document is no longer at the revision read ends in conflict and changes nothing |
| `Etcd.OvertakenUpdateConflicts` | storage/etcd/etcd.go:514-524 | an update whose document changed since the read, even deleted and created again, ends in conflict |
| `Etcd.OneUpdatePerRevision` | storage/etcd/etcd.go:514-518 | when one of two updates that read the same revision commits, the other is overtaken |
| `Etcd.OneCommitPerRevision` | storage/etcd/etcd.go:497-526 | along any run at most one of the updates that read one revision commits |
| `Etcd.ReplaysAgree` | storage/memory/memory.go:370-435 | for any log that etcd explains, the memory storage gives the same outcomes if and only if every update not in conflict found its document, and then the same contents |
| `Etcd.AgreesWithMemory` | storage/etcd/etcd.go:497-526 | for every run: the operations completed have the same outcomes and leave the same contents on the memory storage if and only if no update that was not in conflict found its document missing |
| `StaticOverlay.IndexFindsLast` | storage/static.go:26-29 | the index of the static entries finds the last entry of a key |
| `StaticOverlay.LastUnhidden` | storage/static.go:51-59 | filtering the backing entries removes every key of a static entry and no other |
| `StaticOverlay.ListedAsSeen` | storage/static.go:96-141 | the last listed entry of a key is what a lookup finds, for any order of the backing list and any duplicates among static entries |
| `StaticOverlay.WritesActOnWhatIsSeen` | storage/static.go:63-82 | a write to a static key is refused; any other acts on what readers see as it would on a plain table |
| `StaticOverlay.StaticEntriesNeverChange` | storage/static.go:143-162 | no sequence of writes changes what is seen or stored under a static key |
| `StaticOverlay.SameLetters` | storage/static.go:99-104 | two spellings of an email share a key if and only if they differ in the case of letters alone |
| `StaticOverlay.Overlay.constructor` | storage/static.go:25-32 | the loop builds the index in which later entries win |
| `StaticOverlay.Overlay.Get` | storage/static.go:115-123 | looks up the static entries first, then the backing storage, passwords by lower-cased email |
| `StaticOverlay.Overlay.List` | storage/static.go:125-141 | lists the unhidden entries, then the static ones, and agrees with lookups on every key |
| `StaticOverlay.Overlay.Squeeze` | storage/static.go:51-60 | the in-place compaction equals the filter |
| `StaticOverlay.Overlay.Apply` | storage/static.go:213-232 | a write to a static key is refused; others fail exactly when the key is there, or is not, and change that key alone as asked |
| `Base32.NumberOfBits` | storage/kubernetes/client.go:69-69 | reading back the bits of a number gives the number |
| `Base32.SymbolsInjective` | storage/kubernetes/client.go:69-69 | bit strings of one length with the same symbols are equal (section 6 of RFC 4648) |
| `Base32.TrimmedEncoding` | storage/kubernetes/client.go:68-73 | trimming removes the padding and nothing else, and leaves only characters Kubernetes names allow |
| `Base32.TrimmedEncodingInjective` | storage/kubernetes/client.go:71-73 | no two byte strings share an unpadded encoding |
| `Base32.TrimmedSpells` | storage/kubernetes/client.go:69-73 | which letter stands where: one for every five bits begun, most significant bits first, zeros past the end (section 6 of RFC 4648) |
| `Base32.EncodedInBlocks` | storage/kubernetes/client.go:69-73 | the padded encoding comes in blocks of eight, filled up with equals signs |
| `Kubernetes.IdToNameInjective` | storage/kubernetes/client.go:71-73 | for every hash function no two IDs share a name |
| `Kubernetes.IdNamesSpell` | storage/kubernetes/client.go:71-73 | the name of a client or password spells its ID followed by the hash of nothing |
| `Kubernetes.SessionNamesSpell` | storage/kubernetes/client.go:75-80 | the name of a session spells the hash of its user and connector IDs, in that order |
| `Kubernetes.SameLetters` | storage/kubernetes/storage.go:294-298 | two spellings of an email share a key if and only if they differ in the case of letters alone |
| `Kubernetes.KeysAsFiled` | storage/kubernetes/storage.go:294-298 | emails are filed and found in lower case, other keys as they are |
| `Kubernetes.OfflineTokenNamesCollide` | storage/kubernetes/client.go:75-80 | session names collide if and only if the hash does on the joined IDs |
| `Kubernetes.SomeSessionsAlwaysCollide` | storage/kubernetes/client.go:75-80 | two different sessions that share a name under every hash |
| `Kubernetes.GetIsExact` | storage/kubernetes/storage.go:274-346 | a get that succeeds returns what is stored for exactly that key; one that fails means nothing is stored for it |
| `Kubernetes.Resource.Create` | storage/kubernetes/storage.go:226-244 | refused exactly when the name is taken; otherwise changes only its own key, which held nothing |
| `Kubernetes.Resource.Update` | storage/kubernetes/storage.go:456-504 | succeeds exactly when something is stored for the key and the updater accepts it, and then stores the updater's result on just that, changing this key alone; a failing updater is reported and changes nothing |
| `Kubernetes.Resource.Delete` | storage/kubernetes/storage.go:405-434 | succeeds exactly when the key is stored, and removes it alone |
| `Kubernetes.OnlySessionsAreRefused` | storage/kubernetes/storage.go:226-236 | a client or password whose name is taken is itself stored under it |
| `Migrate.EachMigrationRunsOnce` | storage/sql/migrate.go:19-60 | with any number of instances each pending migration runs once, in order; the counts add up to those run, and to all pending ones as soon as one instance is through |
| `Migrate.LoopsTerminate` | storage/sql/migrate.go:19-58 | over every run each instance takes at most one turn more than migrations were pending, all together at most as many as were pending plus one each; turns equal migrations performed plus the final one |
| `Migrate.LaterRunsReturnZero` | storage/sql/migrate.go:34-37 | an instance that begins after another is through counts nothing, whatever else runs |
| `Migrate.Database.Migrate` | storage/sql/migrate.go:19-60 | the loop alone terminates, performs exactly the pending migrations in order and returns their number |

## Left out

- HTTP parsing, routing, templates, logging and URL building: no state of interest. That a redirect URI is an http URL on localhost is a given fact about the request.
- Cryptography: a signature is represented by its key ID, and `at_hash`, signing and bcrypt do not appear.
- The codec of refresh tokens and subjects: pairs are presented decoded. Refresh tokens of old servers, whose value is empty, cannot arise from the empty store runs begin with.
- Upstream connectors: they answer with an identity, an error, or whether they can refresh, as the event says.
- Whether `ConnectorID` matches the claims of a request, and whether the subject is stable when a connector's refresh answers another user: the code does not decide these.
- SQL storage apart from migration: nothing to prove without a semantics of SQL. Migration assumes serializable transactions.
- Clock skew: one monotone clock serves all instances.
- Fields that no decision reads: `LastUsed`, `CreatedAt`, `ConnectorData`, approval prompts, names and logos.
- Storage calls that report failure and yet take effect: a failing call has no effect here.
- Aliasing of a session's map between the memory storage and its readers: a session read is a snapshot.
- The nil dereference when a session lost its reference during a refresh: the handler ends without a response.
- A connector that cannot be opened during a code exchange: the source writes an error body and carries on without a refresh token; the model carries on without one.
- The GET form of an approval that only shows the page: it changes nothing. Like the login pages it does not check the expiry of the request.
- Which error a refusal shows: an expired object and one already collected are refused with different status codes and texts.
- Interleaved Kubernetes calls, and updaters that change the key fields of a session.
- Lower-casing of characters outside ASCII.
- `ListRefresh`, health checks, discovery and the rest of the gRPC interface: each reads the storage once or makes one storage call, and no handler depends on them.
- The key record in the comparison of etcd with the memory storage: the memory storage always holds one, so updating it finds nothing missing.
