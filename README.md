# Multi-tenant zone mapper: tenancy, cleanup and session core in Dafny

This project models the parts of the application that decide who owns what and who may see what. Each module is a Dafny model with contracts and proofs.

- **Tenant provisioning** (`TenantProvisioner`). This is the hook that runs before an identity is created.
  - It rejects an event with no uid.
  - It names the tenant after the display name, else the email, else `"User "` followed by the first eight characters of the uid.
  - In one all-or-nothing transaction it writes one `{name, ownerId, status: active}` record under a fresh id.
  - It answers with the `tenantId` custom claim.
  - A failure is rethrown as the same `HttpsError`, or else wrapped as an `internal` one.
- **Cascade deletion** (`DocOrder`, `CascadeDeleter`). After a zone is deleted, its `people` and then its `locations` sub-collections are drained in rounds.
  - Each round fetches the 100 documents with the smallest ids and deletes exactly those.
  - The drain stops when a fetch comes back empty.
  - The `Database` class holds the collections as a map from path to a set of ids. Its methods are proved against the drain's specification, `DrainBatches`.
- **Session store** (`Auth`). The six-field session state and its actions:
  - the auth-state listener, `fetchIdToken`, `signInWithGoogle`, `signOut`, `clearError` and `refreshToken`.

  Each action is a pure step function. The `AuthStore` class updates the fields one by one and is proved to reach the step function's result. The invariants are proved over any run of actions.
- **Authenticated requests** (`UseAuth`).
  - The bearer header, which overrides any `Authorization` header the caller passes.
  - The `$fetchAuth` wrapper. After a 401 it refreshes the token once and retries once, and it signs out if the retry fails.
  - The 50-minute refresh interval. Each tick refreshes a signed-in session or cancels the interval.
- **Route guards** (`RouteGuard`, `UriComponent`). The redirect decision of the authentication middleware and of the guest-only middleware. `encodeURIComponent` is modelled together with its inverse, so the model can prove that the login redirect leads back to the page first asked for.

The identity provider, the document store's commit outcomes and the HTTP client are oracle parameters: each operation receives their answers as arguments.

Two behaviours follow the code rather than its comments:

- `refreshToken` (store/auth.ts:157-167) keeps a sign-out for a failed refresh. It can never be reached, because `fetchIdToken` (store/auth.ts:79-82) catches every error itself. `Auth.RefreshIsFetch` states that a refresh is exactly a token fetch and never signs anyone out.
- `deleteQueryBatch` (firebase-cloud-functions/functions/src/index.ts:157-159) recurses through `process.nextTick` without chaining the promise. Only a failure in the first round rejects `deleteCollection`. A failure in a later round leaves the promise unsettled, so `onZoneDeleted` never finishes. The model calls this outcome `Pending`.

## Model

| member | source | states |
|---|---|---|
| `TenantProvisioner.TenantName` | firebase-cloud-functions/functions/src/index.ts:51 | The name is the display name when it is non-empty, else the email when it is non-empty, else "User " followed by a prefix of the uid of length min(8, \|uid\|). It is never empty when the uid is not. |
| `TenantProvisioner.FallbackNameBounded` | firebase-cloud-functions/functions/src/index.ts:51 | The fallback name is at most 13 characters long, and it is exactly "User " plus the first eight characters when the uid has at least eight. |
| `TenantProvisioner.MapTransactionError` | firebase-cloud-functions/functions/src/index.ts:84-95 | An `HttpsError` is rethrown unchanged. Any other error becomes code "internal", with the setup-failure prefix followed by the error's message, or by "Unknown error" for a thrown non-`Error`. |
| `TenantProvisioner.NewTenant` | firebase-cloud-functions/functions/src/index.ts:64-68 | The written record is owned by the uid, is active and carries the derived tenant name. |
| `TenantProvisioner.Provision` | firebase-cloud-functions/functions/src/index.ts:41-96 | With no uid: invalid-argument and the store unchanged. On a failed transaction: the mapped error and the store unchanged. On success: the claims carry the new id, the store gains exactly that key with the new record, and every other record is unchanged. |
| `TenantProvisioner.ProvisionAllOrNothing` | firebase-cloud-functions/functions/src/index.ts:58-71 | With a fresh id, the hook is rejected if and only if the store is unchanged. When it succeeds, the store grows by exactly one record. |
| `TenantProvisioner.ClaimsNameOwnedTenant` | firebase-cloud-functions/functions/src/index.ts:60-82 | The `tenantId` in the claims was absent before, now names a record, and that record is owned by the new uid and is active. |
| `TenantProvisioner.RejectionCodes` | firebase-cloud-functions/functions/src/index.ts:41-96 | Every rejection is one of three errors: the invalid-argument error, the `HttpsError` the transaction threw, or an "internal" error. |
| `TenantProvisioner.FreshId` | firebase-cloud-functions/functions/src/index.ts:60-61 | Some document id is always free, so a fresh id can always be generated. |
| `TenantProvisioner.TenantStore.AssignTenantIdOnCreate` | firebase-cloud-functions/functions/src/index.ts:41-96 | The hook on the store object: for some id not in the store beforehand, the new store and the result are those `Provision` gives for that id. |
| `DocOrder.BelowTransitive` | firebase-cloud-functions/functions/src/index.ts:128 | Ordering by document id is transitive. |
| `DocOrder.BelowTotal` | firebase-cloud-functions/functions/src/index.ts:128 | Of two distinct ids, one sorts before the other. |
| `DocOrder.LeastExists` | firebase-cloud-functions/functions/src/index.ts:128 | Every non-empty set of ids has a least element. |
| `DocOrder.FirstBatchUnique` | firebase-cloud-functions/functions/src/index.ts:128 | At most one subset of a collection has min(k, \|s\|) members all sorting before the rest. |
| `DocOrder.FirstBatch` | firebase-cloud-functions/functions/src/index.ts:128 | The ordered, limited query returns a subset of the collection of size min(k, \|s\|), and every id in it sorts before every id left behind. |
| `CascadeDeleter.SubcollectionPathInjective` | firebase-cloud-functions/functions/src/index.ts:113 | Different sub-collection names of one zone give different paths. |
| `CascadeDeleter.ZonePaths` | firebase-cloud-functions/functions/src/index.ts:102 | The zone's sub-collection paths are exactly one per listed name, and there are two of them. |
| `CascadeDeleter.CeilDiv` | firebase-cloud-functions/functions/src/index.ts:141-160 | ⌈n/k⌉, given by its defining inequalities: it is zero only for n = 0, n ≤ c·k, and (c−1)·k < n. |
| `CascadeDeleter.DrainStep` | firebase-cloud-functions/functions/src/index.ts:142-147 | An empty collection yields no batches, so the first empty fetch ends the drain. A non-empty one yields its first batch and then the drain of what is left. |
| `CascadeDeleter.DrainBatchCount` | firebase-cloud-functions/functions/src/index.ts:141-160 | Draining N documents takes exactly ⌈N/k⌉ delete rounds. |
| `CascadeDeleter.DrainBatchesWithin` | firebase-cloud-functions/functions/src/index.ts:150-154 | Every round deletes a non-empty set of at most k documents, all of them in the collection. |
| `CascadeDeleter.DrainBatchesFull` | firebase-cloud-functions/functions/src/index.ts:128 | Every round except the last deletes exactly k documents. |
| `CascadeDeleter.DrainBatchesDisjoint` | firebase-cloud-functions/functions/src/index.ts:150-154 | No document is deleted in two rounds. |
| `CascadeDeleter.DrainBatchesCoverAll` | firebase-cloud-functions/functions/src/index.ts:141-160 | Together, the rounds delete exactly the collection's documents. |
| `CascadeDeleter.DrainBatchesOrdered` | firebase-cloud-functions/functions/src/index.ts:128 | Every id deleted in an earlier round sorts before every id deleted in a later one. |
| `CascadeDeleter.ThreeRounds` | firebase-cloud-functions/functions/src/index.ts:141-160 | 2k + r documents, with 0 < r ≤ k, take three rounds of sizes k, k and r. |
| `CascadeDeleter.TwoHundredFiftyDocuments` | firebase-cloud-functions/functions/src/index.ts:114 | With the batch size of 100, 250 documents take rounds of 100, 100 and 50. |
| `CascadeDeleter.RoundsCommitted` | firebase-cloud-functions/functions/src/index.ts:155-159 | The rounds committed before a failing round never exceed the rounds of the drain. Without a failure, all of them commit. |
| `CascadeDeleter.Database.DeleteQueryBatch` | firebase-cloud-functions/functions/src/index.ts:141-160 | One round deletes exactly the query's first batch from the target collection. An empty fetch changes nothing. |
| `CascadeDeleter.Database.DeleteCollection` | firebase-cloud-functions/functions/src/index.ts:125-133 | The rounds committed are a prefix of `DrainBatches` of the collection, cut at the failing round. The outcome is resolved, rejected (failure in round 0) or pending (a later failure). The collection loses exactly the committed documents and is empty when the drain resolves. An empty collection is left untouched. No other path changes. |
| `CascadeDeleter.Database.OnZoneDeleted` | firebase-cloud-functions/functions/src/index.ts:108-118 | The sub-collections are drained in list order at their zone paths, and draining stops at the first that does not resolve. Every drained one that resolved is empty. The one that failed keeps exactly its documents less the batches committed before the failure. The sub-collections after it keep their documents. Nothing outside the zone's sub-collections changes. |
| `Auth.InitialState` | store/auth.ts:27-34 | In the initial state, user, tenant, token and error are null, and both flags are false. |
| `Auth.FetchIdTokenStep` | store/auth.ts:65-83 | With no user, nothing changes. On success: the new token, and the tenant claim only if it is non-empty (null otherwise). On failure: the error message, with the tenant kept. The user and the flags are never touched. |
| `Auth.AuthStateChangedStep` | store/auth.ts:49-62 | The store takes the reported user. A null user clears tenant and token. A signed-in user's token is fetched: a token that arrives is stored together with the tenant claim (none if the claim is empty), and a failed fetch records the token error and keeps the tenant. The store is ready afterwards. |
| `Auth.SignInErrorMessage` | store/auth.ts:108-120 | The three popup codes map to their messages. Any other code gives the error's own message, or the default when that is empty. The message is never empty. |
| `Auth.SignInStep` | store/auth.ts:85-126 | A failed popup records the mapped message and rethrows that same error. A successful popup clears the old error, stores the user, fetches their token and returns the user: a token that arrives is stored with the tenant claim and leaves no error, and a failed fetch records the token error. In both cases loading ends false. |
| `Auth.SignOutStep` | store/auth.ts:128-150 | Once the provider signs out, user, tenant and token are cleared; the error is cleared too on success, and set to the sign-out error if the navigation fails. A provider failure changes only the error. The action reports success exactly on `SignedOut`, and loading ends false. |
| `Auth.ClearErrorStep` | store/auth.ts:152-154 | The error becomes null, and nothing else changes. |
| `Auth.RefreshTokenStep` | store/auth.ts:157-167 | A refresh never changes who is signed in. |
| `Auth.RefreshIsFetch` | store/auth.ts:157-167 | A refresh is exactly a token fetch, so the sign-out for a failed refresh is unreachable. |
| `Auth.InitialConsistent` | store/auth.ts:27-34 | The initial state satisfies the store invariant. |
| `Auth.StepConsistent` | store/auth.ts:45-168 | Every completed action keeps the invariant: no tenant or token without a user, no empty tenant id, and not loading. |
| `Auth.RunConsistent` | store/auth.ts:45-168 | Any sequence of completed actions keeps the invariant. |
| `Auth.RunKeepsReady` | store/auth.ts:60 | Once ready, the store stays ready. |
| `Auth.SignedOutStaysSignedOut` | store/auth.ts:65-66 | A signed-out store stays without user, token or tenant until an action signs someone in. |
| `Auth.RefreshAfterSignOutIsNoOp` | store/auth.ts:157-158 | After the provider has signed out, a refresh changes nothing. |
| `Auth.AuthStore.IsSignedIn` | store/auth.ts:37 | `isAuthenticated` holds exactly when a user is stored. |
| `Auth.AuthStore.constructor` | store/auth.ts:27-34 | The store starts in the initial state. |
| `Auth.AuthStore.FetchIdToken` | store/auth.ts:65-83 | The fields end up as `FetchIdTokenStep` of the old state. |
| `Auth.AuthStore.OnAuthStateChanged` | store/auth.ts:49-62 | The fields end up as `AuthStateChangedStep` of the old state. |
| `Auth.AuthStore.SignInWithGoogle` | store/auth.ts:85-126 | The fields and the result are `SignInStep` of the old state. |
| `Auth.AuthStore.SignOut` | store/auth.ts:128-150 | The fields and the success flag are `SignOutStep` of the old state. |
| `Auth.AuthStore.ClearError` | store/auth.ts:152-154 | The fields end up as `ClearErrorStep` of the old state. |
| `Auth.AuthStore.RefreshToken` | store/auth.ts:157-167 | The fields end up as `RefreshTokenStep` of the old state. |
| `UseAuth.GetAuthHeader` | composables/useAuth.ts:79-87 | The call fails, with the no-token message, exactly when no non-empty token is stored. Otherwise the header map holds only `Authorization`, and that value reads back as the stored token. |
| `UseAuth.MergeHeaders` | composables/useAuth.ts:92-95 | For plain-object caller headers: the request headers are the caller's and the auth headers together. On a shared name, the auth value wins. |
| `UseAuth.AuthHeaderOverrides` | composables/useAuth.ts:92-95 | Whatever `Authorization` the caller passes, the stored token's bearer header is sent. With plain-object caller headers, every other caller header is kept. |
| `UseAuth.Attempt` | composables/useAuth.ts:91-100 | With no token, nothing is sent and the no-token error results. Otherwise one request is sent with the merged headers, and its response or error is the result. |
| `UseAuth.FetchAuthBounded` | composables/useAuth.ts:90-125 | A wrapped request makes at most two fetches and one refresh, and signs out only after a refresh. |
| `UseAuth.NoTokenNoRequest` | composables/useAuth.ts:92-94 | With no token at the start, no fetch is issued, the session is unchanged and the no-token error is thrown. |
| `UseAuth.FirstSuccess` | composables/useAuth.ts:97-100 | A successful first fetch returns its body after exactly one fetch, with the stored token's header, no refresh and no sign-out. |
| `UseAuth.OtherErrorsPassedOn` | composables/useAuth.ts:101-123 | A non-401 error is rethrown unchanged after one fetch, with the session unchanged. |
| `UseAuth.UnauthorizedRetriesOnce` | composables/useAuth.ts:103-120 | After a 401, exactly one refresh follows. The retry carries the refreshed token. A successful retry returns its body. Otherwise the session is signed out and the newer error is thrown. |
| `UseAuth.SignOutFailureSwallowed` | composables/useAuth.ts:31-37 | The sign-out's own outcome changes neither what the caller sees nor the calls made. |
| `UseAuth.FetchAuthConsistent` | composables/useAuth.ts:90-125 | The wrapper keeps the session-store invariant. |
| `UseAuth.FetchAuth` | composables/useAuth.ts:90-125 | On the shared store object, the result, the calls made and the new session are exactly `FetchAuthSpec` of the old session. |
| `UseAuth.TickStep` | composables/useAuth.ts:62-69 | A tick never changes who is signed in. The interval stays active exactly when it was active and the session is signed in. An active tick on a signed-in session fetches a fresh token: one that arrives is stored, and a failure records the token error. A tick that cancels changes nothing else. |
| `UseAuth.CancelledStaysCancelled` | composables/useAuth.ts:63-68 | A cancelled interval stays cancelled through any later ticks and store actions. |
| `UseAuth.TimerKeepsSignedOut` | composables/useAuth.ts:63-69 | Until someone signs in, a signed-out session keeps no token and no tenant through any ticks and store actions, and the interval's first tick cancels it. |
| `UseAuth.TicksKeepUser` | composables/useAuth.ts:63-69 | Any number of ticks leave the signed-in user as it was. |
| `UseAuth.TickAfterSignOutCancels` | composables/useAuth.ts:64-67 | The first tick after the provider signs out cancels the interval without refreshing. |
| `UseAuth.RefreshTimer.OnTick` | composables/useAuth.ts:63-69 | The timer flag and the store's fields end up as `TickStep` of their old values. |
| `UseAuth.RefreshTimer.Unmount` | composables/useAuth.ts:72-74 | Unmounting clears the interval. |
| `UseAuth.StartTokenRefresh` | composables/useAuth.ts:61-76 | An active interval is created exactly when running on the client while signed in. |
| `UriComponent.DecodeEncode` | middleware/auth.ts:45 | Decoding the percent-encoding of any text gives the text back. |
| `RouteGuard.AuthMiddleware` | middleware/auth.ts:42-54 | Covers every branch. On the server, or signed in off the login page: no navigation. Signed out: the login page with the encoded full path, unless already on the login page. Signed in on the login page: a non-empty redirect other than the login page, else home. Every target is non-empty. |
| `RouteGuard.GuestMiddleware` | middleware/guest.ts:3-10 | Navigation happens exactly when the user is signed in, and then it goes to the app. |
| `RouteGuard.EncodedIsQuerySafe` | middleware/auth.ts:45 | Encoded text holds none of `?`, `#`, `&`, `=` and `+`, so it stays one query value. |
| `RouteGuard.LoginRedirectRoundTrip` | middleware/auth.ts:43-53 | The login URL's path is the login page, and its redirect parameter reads back as the original full path. While signed out, the guard then does nothing. Once signed in, it sends the user to that full path, or home when that path is empty or the login page. |

## Left out

- Firebase internals are not modelled and enter only as oracle answers: token signing, claim decoding, popup sign-in, transaction isolation, and the retries a transaction makes on contention. A retried transaction callback would generate a new id each time, and the model has one attempt.
- The store's document-id generator is modelled only as "some id not already in use". The 20-character auto-id format is not modelled.
- Concurrency is not modelled:
  - the states visible between the awaits of an action (such as `loading = true`);
  - the listener firing while a sign-in is in flight;
  - the race between a scheduled refresh and an in-flight retry.

  Each action is one atomic step.
- Timers are abstract steps. The 50-minute period, the `setInterval`/`clearInterval` scheduling and the `nextTick` recursion are not modelled.
- The readiness wait of the authentication middleware (middleware/auth.ts:8-40) is not modelled: the `initializeAuth` call, the 10-second timeout and the `$subscribe` subscription. The guard is modelled from the point where the session is known.
- Navigation is a returned target. The router's own handling of a navigation is not modelled. The navigation inside `signOut` is modelled only through whether it fails.
- `UseAuth.FetchAuth`: request options other than the headers are not modelled, and neither is the response body's type. Header names are compared exactly, so a caller's lower-case `authorization` header would be kept alongside the bearer header.
- `UseAuth.MergeHeaders`: caller headers are modelled only as a plain object of name-value pairs. The source spreads `options.headers` into an object literal (composables/useAuth.ts:92-95, 107-110), and `options` is untyped. A `Headers` instance has no own enumerable properties, so the spread drops all of its headers. An array of pairs spreads to the keys "0", "1" and so on. For either form the caller's headers are lost or mangled, which the model does not capture.
- `UseAuth.AuthHeaderOverrides`: "every other caller header is kept" holds only for plain-object caller headers, for the reason given for `UseAuth.MergeHeaders`.
- `RouteGuard.LoginRedirectRoundTrip`: a query parameter repeated in the URL, which the router turns into an array, is not modelled. Only the first occurrence is read.
- `TenantProvisioner.TenantName`: strings are sequences of Unicode scalar values. For characters outside the Basic Multilingual Plane, JavaScript's `slice(0, 8)` counts UTF-16 code units and can therefore cut a different prefix.
- `DocOrder.FirstBatch`: ids are ordered by code point. The store's own ordering of document names (byte order, and its special handling of numeric ids) is not modelled.
- Logging is not modelled; nor are the emulator host settings (firebase-cloud-functions/functions/src/index.ts:17-32).
- These store getters are not part of the core and are not modelled: `isLoading`, `hasError`, `userEmail`, `userName`, `userPhotoURL`.
- The composable's `signInWithGoogle` and `initializeAuth` wrappers are not modelled. Both forward to the store and swallow its errors. `signInWithGoogle` also navigates home after a successful sign-in (composables/useAuth.ts:19-29). `initializeAuth` does not navigate (composables/useAuth.ts:52-58).
- The other stores, the Firestore composable, the plugin and the type declarations are not part of this model.
