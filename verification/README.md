# Blood-pressure tracker: sign-in flow, session repository and OCR classifier in Dafny

This project models three parts of the blood-pressure tracker's Rust server.

- **Sign-in with OpenID Connect** (`src/controllers/login.rs`). The server uses the Authorization Code flow with PKCE (section 3.1 of OpenID Connect Core 1.0, with PKCE as in RFC 7636).
  - `login_handler` stores three flow secrets in the session: the CSRF token, the nonce and the PKCE verifier.
  - `get_user_details` reads the secrets back at the callback and runs a fixed chain of checks that stops at the first failure.
  - `oidc_callback_handler` stores the signed-in subject and removes the flow secrets.
  - `auth_middleware` lets a request whose rendered target starts with `/api/` through only when a subject is stored.
- **The session repository** (`src/repositories/session_repository.rs`). This is a typed facade with a getter and a setter for each of four fields, plus `clear_oidc_flow_details`.
- **The OCR result classifier** (`src/controllers/ocr.rs`). It turns what the OCR engine read into one of three responses. The upload handler accepts only a first multipart field named `image`.

Files:

- `wrappers.dfy`: `Option` and `Result`.
- `session_store.dfy` (module `SessionStore`): the session is a class `Session` over a map from keys to serialised values. Every session call takes a `Fault`: `None` means the call went through, and `Some(e)` means it failed with error text `e`. A failing call changes nothing. The pure functions `StoreGet`, `Inserted`, `Removed` and `Outcome` describe the calls.
- `session_repository.dfy` (module `SessionRepository`): the class `TowerSessionRepository`, which holds the session, and pure functions (`Read`, `Write`, `ClearFlow`, ...) that its methods are proved against.
- `login.dfy` (module `Login`): the four handlers as methods on the session. Each is proved equal to a pure function (`LoginEffect`, `LoginResponse`, `UserDetails`, `CallbackEffect`, `CallbackResponse`, `Gate`), and the properties are stated on those functions. The OIDC library is a record of oracles (`Provider`), together with the secrets it generates (`AuthorizationRequest`).
- `login_flow.dfy` (module `LoginFlow`): a session seen across a sequence of requests (`Run`), and lemmas about the whole flow. It also relates the handlers' session keys to the repository's keys.
- `ocr.dfy` (module `Ocr`): the classifier and the upload handler's checks, as functions.

## Where the code departs from the intended flow

The code itself records one intent it does not yet meet: the TODO at `src/controllers/login.rs:108` says the flow secrets should be deleted from the session once read. The other points below are what one would expect of such a flow (secrets stored all or none, one set of session keys, every API route behind the gate); the code does not do them either. The model follows the code.

- A failed callback does not remove the flow secrets (`src/controllers/login.rs:221-228`). A later callback can therefore reuse them. `Login.CallbackEffect` and `LoginFlow.FailedCallbackKeepsFlow` state this, and `LoginFlow.RetryAfterFailedCallback` shows that a later callback with the stored CSRF token and a code the provider accepts signs in with them.
- A successful callback ignores the results of its three removals (`src/controllers/login.rs:204-208`). The flow secrets are gone only when those removals went through. `LoginFlow.ReplayChangesNothing` assumes that they did.
- `login_handler` does not store the three secrets atomically. Each insert takes effect or fails on its own, so a failed login can leave some of the secrets in the session.
- The HTTP client is built before the flow secrets are read. If building it fails, the callback is refused first.
- A failed read and an absent secret give the same refusal ("Error getting auth details from session").
- The handlers store the flow secrets under keys that differ from the repository's keys. Only the subject key is shared. As a result:
  - the repository's flow getters do not see what `login_handler` stored;
  - `clear_oidc_flow_details` does not remove the handlers' flow secrets.
- `auth_middleware` tests the request target as rendered to a string (`src/controllers/login.rs:233`), not the routed path. A target in absolute form (`http://host/api/...`), which HTTP/1.1 servers must accept (section 3.2.2 of RFC 9112), renders starting with its scheme, so it is not treated as an API request and goes through without a subject, while the router still dispatches it by path. `Login.AbsoluteFormTargetSkipsGate` states this for every target that does not start with "/". This is read from the code; whether the server's stack renders every request this way is outside the model.
- The code has no logout handler.

## Model

| member | source | states |
|---|---|---|
| `Login.KeysPairwiseDistinct` | src/controllers/login.rs:19-23 | the CSRF, nonce, verifier and subject keys are pairwise distinct |
| `Login.LoginEffect` | src/controllers/login.rs:62-64 | each insert that went through stores its secret under its key, whatever the other two did; a failed insert leaves its key as it was; no other key changes, the subject included |
| `Login.LoginResponse` | src/controllers/login.rs:65-78 | a redirect to the authorization URL exactly when the three inserts and the save all went through; otherwise 500 and no redirect |
| `Login.LoginHandler` | src/controllers/login.rs:35-79 | the session becomes `LoginEffect` of the old session and the answer is `LoginResponse` |
| `Login.Verify` | src/controllers/login.rs:117-172 | the checks run in order: exchange, token request, ID token present, claims against the stored nonce, CSRF equality, access-token hash. Each refusal holds exactly when all earlier steps passed and its own step failed, down to the four steps of the hash check in their order: signing algorithm, signing key, hash computation, comparison. A CSRF mismatch is refused even when the exchange and claims verification succeeded. Success means the state matched and the provider accepted, and with no hash claim the result is the claims' subject |
| `Login.VerifyComplete` | src/controllers/login.rs:146-172 | the converse: a matching state and an accepting provider give `Ok` with exactly that subject |
| `Login.ReadFlow` | src/controllers/login.rs:104-116 | the three reads are complete exactly when all went through and all three keys are present, and they then carry the stored values |
| `Login.UserDetails` | src/controllers/login.rs:95-175 | the HTTP client is built first. Without all three flow values read and present the result is an error, whatever the provider does, so no exchange is attempted. `Ok` implies the stored CSRF token equals the state and the provider accepted with the stored verifier and nonce |
| `Login.GetUserDetails` | src/controllers/login.rs:81-176 | reads the session without changing it and returns `UserDetails` of what it read |
| `Login.CallbackEffect` | src/controllers/login.rs:198-228 | on `Ok` the subject is stored if its insert went through, and every removal that went through takes its flow key away, whether or not the subject was stored; a removal that failed leaves its key as it was. On `Err` the session is unchanged. Keys outside the four never change |
| `Login.CallbackResponse` | src/controllers/login.rs:198-228 | a redirect to "/" exactly when the checks passed and the subject was stored; otherwise 500, with the same body for every failed check |
| `Login.OidcCallbackHandler` | src/controllers/login.rs:178-230 | the session becomes `CallbackEffect` and the answer is `CallbackResponse` of the checks on the old session |
| `Login.Gate` | src/controllers/login.rs:232-245 | a request whose rendered target does not start with "/api/" goes through whatever the session holds; one whose target does goes through exactly when the subject read went through and found a value, and is answered 401 otherwise |
| `Login.AbsoluteFormTargetSkipsGate` | src/controllers/login.rs:233-237 | every target that does not start with "/", as an absolute-form target starts with its scheme, is not an API request and goes through whatever the session holds, even when its path is under "/api/" |
| `Login.AuthMiddleware` | src/controllers/login.rs:232-245 | returns `Gate` of the session, without changing it |
| `SessionStore.Session.Get` | src/controllers/login.rs:104-106 | a session read: the error text on failure, otherwise `Ok(Some(v))` for a present key and `Ok(None)` for an absent one |
| `SessionStore.Session.Insert` | src/controllers/login.rs:62-64 | stores the value under its key when the call goes through and changes nothing otherwise |
| `SessionStore.Session.Remove` | src/controllers/login.rs:204-206 | takes the key away when the call goes through and returns the removed value |
| `SessionStore.Session.Save` | src/controllers/login.rs:65 | reports the save's outcome and leaves the record unchanged |
| `SessionRepository.FromSessionResult` | src/repositories/session_repository.rs:14-20 | a session error becomes a `SessionRepositoryError` whose description is the error's text; values pass through |
| `SessionRepository.KeysPairwiseDistinct` | src/repositories/session_repository.rs:1-4 | the four repository keys are pairwise distinct |
| `SessionRepository.Read` | src/repositories/session_repository.rs:53-74 | a getter returns the field's value, `Ok(None)` for an absent key, and the session error's text on failure |
| `SessionRepository.WriteResult` | src/repositories/session_repository.rs:76-105 | a setter succeeds exactly when its insert went through, and otherwise reports the session error's text |
| `SessionRepository.ReadAfterWrite` | src/repositories/session_repository.rs:53-105 | for each field, `save_X` followed by `get_X` returns `Ok(Some(value))` |
| `SessionRepository.WriteFrame` | src/repositories/session_repository.rs:76-105 | saving one field leaves what every other getter returns unchanged |
| `SessionRepository.ClearFlow` | src/repositories/session_repository.rs:107-117 | each removal that went through takes its flow key away and a failed one leaves its key as it was; every other key, the subject and the handlers' own flow keys included, keeps its value; no entry is added or altered |
| `SessionRepository.ClearResult` | src/repositories/session_repository.rs:107-117 | success exactly when all three removals went through; otherwise the error text of a removal that failed, the CSRF removal's text first |
| `SessionRepository.TowerSessionRepository.constructor` | src/repositories/session_repository.rs:46-50 | wraps the given session |
| `SessionRepository.TowerSessionRepository.GetOidcUserSubject` | src/repositories/session_repository.rs:53-56 | returns `Read` of the subject field, without changing the session |
| `SessionRepository.TowerSessionRepository.GetOidcCrsfToken` | src/repositories/session_repository.rs:58-61 | returns `Read` of the CSRF field, without changing the session |
| `SessionRepository.TowerSessionRepository.GetOidcNonceKey` | src/repositories/session_repository.rs:63-66 | returns `Read` of the nonce field, without changing the session |
| `SessionRepository.TowerSessionRepository.GetPkceVerifier` | src/repositories/session_repository.rs:68-74 | returns `Read` of the verifier field, without changing the session |
| `SessionRepository.TowerSessionRepository.SaveOidcUserSubject` | src/repositories/session_repository.rs:76-85 | the session becomes `Write` of the subject field; the result is `WriteResult` |
| `SessionRepository.TowerSessionRepository.SaveOidcCrsfToken` | src/repositories/session_repository.rs:87-90 | the session becomes `Write` of the CSRF field; the result is `WriteResult` |
| `SessionRepository.TowerSessionRepository.SaveOidcNonceKey` | src/repositories/session_repository.rs:92-95 | the session becomes `Write` of the nonce field; the result is `WriteResult` |
| `SessionRepository.TowerSessionRepository.SavePkceVerifier` | src/repositories/session_repository.rs:97-105 | the session becomes `Write` of the verifier field; the result is `WriteResult` |
| `SessionRepository.TowerSessionRepository.ClearOidcFlowDetails` | src/repositories/session_repository.rs:107-117 | the session becomes `ClearFlow` of the old one; the result is `ClearResult` |
| `LoginFlow.SubjectStoredMeansVerified` | src/controllers/login.rs:199-202 | a request stores a subject only if it is a callback whose three flow secrets were present, whose state equals the stored CSRF token, and whose code the provider accepted with the stored verifier and nonce for that subject |
| `LoginFlow.StepSubject` | src/controllers/login.rs:199-202 | a request either stores a subject or leaves the stored one as it was |
| `LoginFlow.SubjectComesFromLastCallback` | src/controllers/login.rs:198-229 | in a session that started without a subject, the subject after any sequence of requests is the one stored by the last callback that stored one |
| `LoginFlow.ApiAccessNeedsVerifiedCallback` | src/controllers/login.rs:239-244 | in a session that started signed out, the gate admits an "/api/" request only after some callback stored a subject |
| `LoginFlow.SignInRoundTrip` | src/controllers/login.rs:62-219 | a login whose writes went through, followed by a callback with the CSRF token as state and a code the provider accepts, stores the subject, removes the three flow secrets and opens the gate |
| `LoginFlow.ReplayChangesNothing` | src/controllers/login.rs:204-208 | after a callback that succeeded and whose removals went through, any further callback is refused and changes nothing |
| `LoginFlow.FailedCallbackKeepsFlow` | src/controllers/login.rs:221-228 | a failed callback leaves the session, and so the flow secrets, unchanged |
| `LoginFlow.RetryAfterFailedCallback` | src/controllers/login.rs:221-228 | after any failed callback, a callback that reads the flow secrets, carries the stored CSRF token as its state and a code the provider accepts with the stored verifier and nonce yields that subject, and stores it when its insert goes through |
| `LoginFlow.RepositoryReadsCallbackSubject` | src/repositories/session_repository.rs:53-56 | the subject key is shared, so a subject stored by the callback is what `get_oidc_user_subject` returns |
| `LoginFlow.FlowKeysDisagree` | src/repositories/session_repository.rs:2-4 | the repository's three flow keys are all different from the handlers' three |
| `LoginFlow.RepositoryMissesLoginFlow` | src/repositories/session_repository.rs:58-74 | the repository's flow getters return the same thing before and after `login_handler` |
| `LoginFlow.RepositoryClearKeepsLoginFlow` | src/repositories/session_repository.rs:107-117 | `clear_oidc_flow_details` leaves the handlers' flow secrets readable as before |
| `Ocr.IsUnlikelyReading` | src/controllers/ocr.rs:28-36 | true exactly when systolic < 50, diastolic < 40 or pulse < 40, that is, when some value is below its floor |
| `Ocr.ThresholdsAreStrict` | src/controllers/ocr.rs:30-34 | 50/40/40 is not unlikely; one below any floor is unlikely |
| `Ocr.UnlikelyIsDownwardClosed` | src/controllers/ocr.rs:28-36 | lowering any value of an unlikely reading keeps it unlikely |
| `Ocr.MapOcrResult` | src/controllers/ocr.rs:38-45 | `Err` maps to `ReadingError("Could not detect reading.")`. An `Ok` reading never maps to `ReadingError`: it maps to `UnlikelyReading` exactly when it is unlikely and to `Reading` otherwise, with the three values unchanged |
| `Ocr.RunOcr` | src/controllers/ocr.rs:47-80 | `BAD_REQUEST` exactly when the first field cannot be read, is missing, is not named "image", or has an unreadable body. An accepted upload whose blocking task does not complete gives 500; one whose task completes gives exactly `Ok` of `MapOcrResult` of the engine's reading, and `Ok` comes from nothing else |

## Left out

- Randomness and cryptography are inputs or oracles: the PKCE pair, the random CSRF token and nonce, the authorization URL with its scopes and PKCE challenge, ID-token signature and claims checks, and the access-token hash.
- Building the HTTP client is a boolean input. The token request over the network is the `requestToken` oracle.
- Provider discovery and environment loading in `src/auth/oidc.rs` are not part of this model.
- Concurrency: `join!` and `try_join!` are modelled as sequential calls, each taking effect or failing on its own.
- `SessionRepository.ClearResult`, `SessionRepository.ClearFlow`: when one removal fails, `try_join!` may drop the other removals, but the model lets every removal that did not fail take effect. It reports the first failure in the order CSRF, nonce, verifier, not the first failure in time.
- The session's backing store, session id, cookie and expiry are not modelled. `save` is modelled only by its outcome.
- A session value that does not deserialise counts as a failed call. The case where `remove` takes the key away and then fails to deserialise the value is not modelled separately.
- Logging (`println!`) is left out, and with it the error texts of `get_user_details`, which only reach the log (`src/controllers/login.rs:222`); the model names each refusal by an `AuthError` variant instead.
- `Login.OidcCallbackHandler`: a callback whose query lacks `code` or `state` is refused with 400 by the query extractor (`src/controllers/login.rs:190`) before the handler runs; the model always supplies both parameters, so that error path is not modelled.
- What the wrapped handler does after the gate lets a request through is outside the model.
- The OCR engine (`get_reading_from_buffer`) is an oracle. Completion of `spawn_blocking` is a boolean input. Multipart streaming is reduced to the first field.
- The SQL repository, `blood_pressure_readings_repository.rs`, `weight.rs`, `export.rs`, `blood_pressure_reading.rs`, `main.rs` and the client are not part of this model.
