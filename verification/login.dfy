/**
  Sign-in with OpenID Connect: the Authorization Code flow with PKCE (section 3.1
  of OpenID Connect Core 1.0, with PKCE as in RFC 7636).

  - `LoginHandler` stores three flow secrets (CSRF token, nonce, PKCE verifier) in
    the session and redirects the browser to the provider.
  - `GetUserDetails` reads them back at the callback and runs a fixed chain of
    checks that stops at the first failure.
  - `OidcCallbackHandler` then stores the signed-in subject and removes the flow
    secrets.
  - `AuthMiddleware` lets a request under "/api/" through only when a subject is
    stored.

  The OIDC library (random secrets, code exchange over the network, ID-token
  signature and claims checks, access-token hashing) is a set of oracles: the
  `Provider` record and the `AuthorizationRequest` it generates.
 */
module Login {
  import opened Wrappers
  import opened SessionStore

  // Session keys of the login flow.
  const CsrfTokenKey := "OIDC_CSRF_TOKEN"
  const NonceKey := "OIDC_NONCE"
  const PkceVerifierKey := "OIDC_PKCE_VERIFIER"
  const SubjectKey := "OIDC_SUBJECT_KEY"

  /** No two of the four keys coincide, so storing one value never overwrites another. */
  lemma KeysPairwiseDistinct()
    ensures CsrfTokenKey != NonceKey && CsrfTokenKey != PkceVerifierKey && CsrfTokenKey != SubjectKey
    ensures NonceKey != PkceVerifierKey && NonceKey != SubjectKey
    ensures PkceVerifierKey != SubjectKey
  {
  }

  // HTTP status codes the handlers answer with.
  const Unauthorized := 401
  const InternalServerError := 500

  /** What a handler answers: a temporary (307) redirect, or a status with a text body. */
  datatype Response = TemporaryRedirect(location: string) | Status(code: int, body: string)

  /** What the gate does with a request: hand it to the wrapped handler, or answer it. */
  datatype GateDecision = Forward | Reject(status: int)

  /** What the OIDC library generates at login: the provider's authorization URL
      (scopes "email" and "openid", carrying the PKCE challenge), a random CSRF token,
      a random nonce, and the PKCE verifier whose SHA-256 digest is that challenge. */
  datatype AuthorizationRequest = AuthorizationRequest(
    url: string, csrfToken: string, nonce: string, pkceVerifier: string)

  datatype IdToken = IdToken(jwt: string)

  /** The provider's answer to a code exchange. */
  datatype TokenResponse = TokenResponse(accessToken: string, idToken: Option<IdToken>)

  /** The ID-token claims the callback uses. */
  datatype Claims = Claims(subject: string, accessTokenHash: Option<string>)

  /**
    The OIDC client and library as oracles; `None` is a failure.
    - `hasTokenEndpoint`: whether the client can build a code-exchange request.
    - `requestToken(code, verifier)`: the token request sent to the provider.
    - `verifyClaims(idToken, nonce)`: signature and claims checked against the nonce.
    - `signingAlg(idToken)`, `signingKey(idToken)`: the ID token's signing algorithm and key.
    - `accessTokenHash(accessToken, alg, key)`: the hash of an access token.
   */
  datatype Provider = Provider(
    hasTokenEndpoint: bool,
    requestToken: (string, string) -> Option<TokenResponse>,
    verifyClaims: (IdToken, string) -> Option<Claims>,
    signingAlg: IdToken -> Option<string>,
    signingKey: IdToken -> Option<string>,
    accessTokenHash: (string, string, string) -> Option<string>)

  /** The query parameters of the callback URL. */
  datatype CallbackParameters = CallbackParameters(code: string, state: string)

  /** Why a callback is refused; one per early return of the check chain. */
  datatype AuthError =
    | HttpClientUnavailable
    | MissingFlowDetails
    | CodeExchangeUnavailable
    | TokenRequestFailed
    | MissingIdToken
    | ClaimsRejected
    | CsrfMismatch
    | SigningAlgorithmProblem
    | SigningKeyProblem
    | TokenHashProblem
    | AccessTokenMismatch

  // ---------------------------------------------------------------------------
  // Login

  /** The session after `login_handler`: each of the three inserts that went through
      has stored its secret; nothing else changes. */
  function LoginEffect(m: Entries, auth: AuthorizationRequest, inserts: FlowFaults): (r: Entries)
    ensures inserts.csrf.None? ==> Lookup(r, CsrfTokenKey) == Some(auth.csrfToken)
    ensures inserts.nonce.None? ==> Lookup(r, NonceKey) == Some(auth.nonce)
    ensures inserts.verifier.None? ==> Lookup(r, PkceVerifierKey) == Some(auth.pkceVerifier)
    ensures inserts.csrf.Some? ==> Lookup(r, CsrfTokenKey) == Lookup(m, CsrfTokenKey)
    ensures inserts.nonce.Some? ==> Lookup(r, NonceKey) == Lookup(m, NonceKey)
    ensures inserts.verifier.Some? ==> Lookup(r, PkceVerifierKey) == Lookup(m, PkceVerifierKey)
    ensures forall k | k != CsrfTokenKey && k != NonceKey && k != PkceVerifierKey ::
              Lookup(r, k) == Lookup(m, k)
  {
    Inserted(Inserted(Inserted(m, CsrfTokenKey, auth.csrfToken, inserts.csrf),
                      NonceKey, auth.nonce, inserts.nonce),
             PkceVerifierKey, auth.pkceVerifier, inserts.verifier)
  }

  /** `login_handler` redirects to the authorization URL only when the three inserts
      and the save all went through; otherwise it answers 500. */
  function LoginResponse(auth: AuthorizationRequest, inserts: FlowFaults, save: Fault): (r: Response)
    ensures r.TemporaryRedirect? <==> inserts.AllWentThrough() && save.None?
    ensures r.TemporaryRedirect? ==> r.location == auth.url
    ensures r.Status? ==> r.code == InternalServerError
  {
    if inserts.AllWentThrough() && save.None? then TemporaryRedirect(auth.url)
    else Status(InternalServerError, "Error storing auth details into session")
  }

  /** `login_handler`: the three inserts and the save are issued together; each
      takes effect or fails on its own. */
  method LoginHandler(session: Session, auth: AuthorizationRequest, inserts: FlowFaults, save: Fault)
    returns (resp: Response)
    modifies session
    ensures session.entries == LoginEffect(old(session.entries), auth, inserts)
    ensures resp == LoginResponse(auth, inserts, save)
  {
    var csrfInsert := session.Insert(CsrfTokenKey, auth.csrfToken, inserts.csrf);
    var nonceInsert := session.Insert(NonceKey, auth.nonce, inserts.nonce);
    var verifierInsert := session.Insert(PkceVerifierKey, auth.pkceVerifier, inserts.verifier);
    var saved := session.Save(save);
    if csrfInsert.Ok? && nonceInsert.Ok? && verifierInsert.Ok? && saved.Ok? {
      resp := TemporaryRedirect(auth.url);
    } else {
      resp := Status(InternalServerError, "Error storing auth details into session");
    }
  }

  // ---------------------------------------------------------------------------
  // Callback checks

  /** The token response, when the exchange can be built and the request succeeds. */
  function TokenOf(p: Provider, code: string, verifier: string): Option<TokenResponse>
  {
    if p.hasTokenEndpoint then p.requestToken(code, verifier) else None
  }

  /** The ID token of that response, if any. */
  function IdTokenOf(p: Provider, code: string, verifier: string): (r: Option<IdToken>)
    ensures r.Some? ==> TokenOf(p, code, verifier).Some?
  {
    match TokenOf(p, code, verifier)
    case None => None
    case Some(response) => response.idToken
  }

  /** The claims of that ID token, once verified against `nonce`. */
  function ClaimsOf(p: Provider, code: string, verifier: string, nonce: string): (r: Option<Claims>)
    ensures r.Some? ==> IdTokenOf(p, code, verifier).Some?
  {
    match IdTokenOf(p, code, verifier)
    case None => None
    case Some(token) => p.verifyClaims(token, nonce)
  }

  /** The access-token binding: the hash of the access token, computed with the ID
      token's own signing algorithm and key, equals `expected`. */
  predicate HashBinds(p: Provider, response: TokenResponse, token: IdToken, expected: string)
  {
    var alg := p.signingAlg(token);
    var key := p.signingKey(token);
    alg.Some? && key.Some? && p.accessTokenHash(response.accessToken, alg.value, key.value) == Some(expected)
  }

  /** Everything the provider's side of a callback must get right for `subject` to
      sign in: the exchange yields an ID token, its claims verify against the stored
      nonce and name `subject`, and an access-token hash claim, when present, binds
      the returned access token. */
  predicate ProviderAccepts(p: Provider, code: string, verifier: string, nonce: string, subject: string)
  {
    var claims := ClaimsOf(p, code, verifier, nonce);
    && claims.Some?
    && claims.value.subject == subject
    && (claims.value.accessTokenHash.Some? ==>
          HashBinds(p, TokenOf(p, code, verifier).value, IdTokenOf(p, code, verifier).value,
                    claims.value.accessTokenHash.value))
  }

  /** The checks of `get_user_details` once the three flow secrets are in hand, in
      their order: build the exchange, request the token, require an ID token,
      verify its claims against the stored nonce, compare the CSRF token with the
      received state, check the access-token hash. The first failure decides. */
  function Verify(p: Provider, params: CallbackParameters, csrf: string, nonce: string, verifier: string)
    : (r: Result<string, AuthError>)
    ensures r == Err(CodeExchangeUnavailable) <==> !p.hasTokenEndpoint
    ensures r == Err(TokenRequestFailed) <==>
              p.hasTokenEndpoint && p.requestToken(params.code, verifier).None?
    ensures r == Err(MissingIdToken) <==>
              TokenOf(p, params.code, verifier).Some? && IdTokenOf(p, params.code, verifier).None?
    ensures r == Err(ClaimsRejected) <==>
              IdTokenOf(p, params.code, verifier).Some? && ClaimsOf(p, params.code, verifier, nonce).None?
    ensures r == Err(CsrfMismatch) <==>
              ClaimsOf(p, params.code, verifier, nonce).Some? && csrf != params.state
    ensures r == Err(SigningAlgorithmProblem) <==>
              && ClaimsOf(p, params.code, verifier, nonce).Some? && csrf == params.state
              && ClaimsOf(p, params.code, verifier, nonce).value.accessTokenHash.Some?
              && p.signingAlg(IdTokenOf(p, params.code, verifier).value).None?
    ensures r == Err(SigningKeyProblem) <==>
              && ClaimsOf(p, params.code, verifier, nonce).Some? && csrf == params.state
              && ClaimsOf(p, params.code, verifier, nonce).value.accessTokenHash.Some?
              && p.signingAlg(IdTokenOf(p, params.code, verifier).value).Some?
              && p.signingKey(IdTokenOf(p, params.code, verifier).value).None?
    ensures r == Err(TokenHashProblem) <==>
              && ClaimsOf(p, params.code, verifier, nonce).Some? && csrf == params.state
              && ClaimsOf(p, params.code, verifier, nonce).value.accessTokenHash.Some?
              && p.signingAlg(IdTokenOf(p, params.code, verifier).value).Some?
              && p.signingKey(IdTokenOf(p, params.code, verifier).value).Some?
              && p.accessTokenHash(TokenOf(p, params.code, verifier).value.accessToken,
                                   p.signingAlg(IdTokenOf(p, params.code, verifier).value).value,
                                   p.signingKey(IdTokenOf(p, params.code, verifier).value).value).None?
    ensures r == Err(AccessTokenMismatch) <==>
              && ClaimsOf(p, params.code, verifier, nonce).Some? && csrf == params.state
              && ClaimsOf(p, params.code, verifier, nonce).value.accessTokenHash.Some?
              && p.signingAlg(IdTokenOf(p, params.code, verifier).value).Some?
              && p.signingKey(IdTokenOf(p, params.code, verifier).value).Some?
              && p.accessTokenHash(TokenOf(p, params.code, verifier).value.accessToken,
                                   p.signingAlg(IdTokenOf(p, params.code, verifier).value).value,
                                   p.signingKey(IdTokenOf(p, params.code, verifier).value).value).Some?
              && !HashBinds(p, TokenOf(p, params.code, verifier).value, IdTokenOf(p, params.code, verifier).value,
                            ClaimsOf(p, params.code, verifier, nonce).value.accessTokenHash.value)
    ensures r.Ok? ==> csrf == params.state && ProviderAccepts(p, params.code, verifier, nonce, r.value)
    ensures r.Err? ==> r.error != HttpClientUnavailable && r.error != MissingFlowDetails
  {
    if !p.hasTokenEndpoint then Err(CodeExchangeUnavailable)
    else
      var response := p.requestToken(params.code, verifier);
      if response.None? then Err(TokenRequestFailed)
      else if response.value.idToken.None? then Err(MissingIdToken)
      else
        var token := response.value.idToken.value;
        var claims := p.verifyClaims(token, nonce);
        if claims.None? then Err(ClaimsRejected)
        else if csrf != params.state then Err(CsrfMismatch)
        else
          match claims.value.accessTokenHash
          case None => Ok(claims.value.subject)
          case Some(expected) =>
            var alg := p.signingAlg(token);
            if alg.None? then Err(SigningAlgorithmProblem)
            else
              var key := p.signingKey(token);
              if key.None? then Err(SigningKeyProblem)
              else
                var actual := p.accessTokenHash(response.value.accessToken, alg.value, key.value);
                if actual.None? then Err(TokenHashProblem)
                else if actual.value != expected then Err(AccessTokenMismatch)
                else Ok(claims.value.subject)
  }

  /** The converse of `Verify`'s success clause: when the state matches and the
      provider accepts, the callback yields exactly that subject. */
  lemma VerifyComplete(p: Provider, params: CallbackParameters, csrf: string, nonce: string, verifier: string, subject: string)
    requires csrf == params.state && ProviderAccepts(p, params.code, verifier, nonce, subject)
    ensures Verify(p, params, csrf, nonce, verifier) == Ok(subject)
  {
  }

  /** The three session reads of the callback. */
  datatype FlowReads = FlowReads(
    csrf: Result<Option<string>, string>,
    nonce: Result<Option<string>, string>,
    verifier: Result<Option<string>, string>)
  {
    /** All three reads succeeded and found a value. */
    predicate Complete()
    {
      csrf.Ok? && csrf.value.Some? && nonce.Ok? && nonce.value.Some? && verifier.Ok? && verifier.value.Some?
    }
  }

  /** What the callback's three reads return on record `m`. */
  function ReadFlow(m: Entries, faults: FlowFaults): (r: FlowReads)
    ensures r.Complete() <==>
              faults.AllWentThrough() && CsrfTokenKey in m && NonceKey in m && PkceVerifierKey in m
    ensures r.Complete() ==>
              r.csrf.value.value == m[CsrfTokenKey] && r.nonce.value.value == m[NonceKey]
              && r.verifier.value.value == m[PkceVerifierKey]
  {
    FlowReads(StoreGet(m, CsrfTokenKey, faults.csrf), StoreGet(m, NonceKey, faults.nonce),
              StoreGet(m, PkceVerifierKey, faults.verifier))
  }

  /** `get_user_details`: the HTTP client is built first; no code exchange is
      attempted unless all three flow secrets were read and present; success means
      the received state is the stored CSRF token and the provider accepts the code
      with the stored verifier and nonce. */
  function UserDetails(httpClientBuilt: bool, flow: FlowReads, p: Provider, params: CallbackParameters)
    : (r: Result<string, AuthError>)
    ensures !httpClientBuilt ==> r == Err(HttpClientUnavailable)
    ensures httpClientBuilt && !flow.Complete() ==> r == Err(MissingFlowDetails)
    ensures r.Ok? ==>
              && flow.Complete()
              && flow.csrf.value.value == params.state
              && ProviderAccepts(p, params.code, flow.verifier.value.value, flow.nonce.value.value, r.value)
    ensures httpClientBuilt && flow.Complete() ==>
              r == Verify(p, params, flow.csrf.value.value, flow.nonce.value.value, flow.verifier.value.value)
  {
    if !httpClientBuilt then Err(HttpClientUnavailable)
    else if !flow.Complete() then Err(MissingFlowDetails)
    else Verify(p, params, flow.csrf.value.value, flow.nonce.value.value, flow.verifier.value.value)
  }

  /** `get_user_details` on the session: reads only. */
  method GetUserDetails(session: Session, httpClientBuilt: bool, p: Provider, params: CallbackParameters, readFaults: FlowFaults)
    returns (r: Result<string, AuthError>)
    ensures r == UserDetails(httpClientBuilt, ReadFlow(session.entries, readFaults), p, params)
  {
    if !httpClientBuilt {
      return Err(HttpClientUnavailable);
    }
    var csrf := session.Get(CsrfTokenKey, readFaults.csrf);
    var nonce := session.Get(NonceKey, readFaults.nonce);
    var verifier := session.Get(PkceVerifierKey, readFaults.verifier);
    match (csrf, nonce, verifier)
    case (Ok(Some(c)), Ok(Some(n)), Ok(Some(v))) =>
      r := Verify(p, params, c, n, v);
    case _ =>
      r := Err(MissingFlowDetails);
  }

  // ---------------------------------------------------------------------------
  // Callback handler

  /** The session after `oidc_callback_handler`. On success the subject is stored
      (if that insert went through) and each flow secret whose removal went through
      is gone, whether or not the subject was stored. On failure nothing changes:
      the flow secrets stay in the session. */
  function CallbackEffect(m: Entries, details: Result<string, AuthError>, subjectInsert: Fault, removals: FlowFaults)
    : (r: Entries)
    ensures details.Err? ==> r == m
    ensures details.Ok? && subjectInsert.None? ==> Lookup(r, SubjectKey) == Some(details.value)
    ensures subjectInsert.Some? ==> Lookup(r, SubjectKey) == Lookup(m, SubjectKey)
    ensures details.Ok? && removals.csrf.None? ==> CsrfTokenKey !in r
    ensures details.Ok? && removals.nonce.None? ==> NonceKey !in r
    ensures details.Ok? && removals.verifier.None? ==> PkceVerifierKey !in r
    ensures removals.csrf.Some? ==> Lookup(r, CsrfTokenKey) == Lookup(m, CsrfTokenKey)
    ensures removals.nonce.Some? ==> Lookup(r, NonceKey) == Lookup(m, NonceKey)
    ensures removals.verifier.Some? ==> Lookup(r, PkceVerifierKey) == Lookup(m, PkceVerifierKey)
    ensures forall k | k != CsrfTokenKey && k != NonceKey && k != PkceVerifierKey && k != SubjectKey ::
              Lookup(r, k) == Lookup(m, k)
  {
    match details
    case Err(_) => m
    case Ok(subject) =>
      var stored := Inserted(m, SubjectKey, subject, subjectInsert);
      Removed(Removed(Removed(stored, CsrfTokenKey, removals.csrf), NonceKey, removals.nonce),
              PkceVerifierKey, removals.verifier)
  }

  /** `oidc_callback_handler` redirects to "/" exactly when the checks passed and the
      subject was stored; every other outcome is a 500 that does not say which check
      failed. */
  function CallbackResponse(details: Result<string, AuthError>, subjectInsert: Fault): (r: Response)
    ensures r == TemporaryRedirect("/") <==> details.Ok? && subjectInsert.None?
    ensures r != TemporaryRedirect("/") ==> r.Status? && r.code == InternalServerError
    ensures details.Err? ==> r == Status(InternalServerError, "Authentication not successful.")
  {
    match details
    case Err(_) => Status(InternalServerError, "Authentication not successful.")
    case Ok(_) =>
      if subjectInsert.Some? then Status(InternalServerError, "Could not start session.")
      else TemporaryRedirect("/")
  }

  method OidcCallbackHandler(
    session: Session, httpClientBuilt: bool, p: Provider, params: CallbackParameters,
    readFaults: FlowFaults, subjectInsert: Fault, removals: FlowFaults)
    returns (resp: Response)
    modifies session
    ensures var details := UserDetails(httpClientBuilt, ReadFlow(old(session.entries), readFaults), p, params);
            && session.entries == CallbackEffect(old(session.entries), details, subjectInsert, removals)
            && resp == CallbackResponse(details, subjectInsert)
  {
    var details := GetUserDetails(session, httpClientBuilt, p, params, readFaults);
    match details
    case Ok(subject) =>
      var storeSubject := session.Insert(SubjectKey, subject, subjectInsert);
      var d1 := session.Remove(CsrfTokenKey, removals.csrf);
      var d2 := session.Remove(NonceKey, removals.nonce);
      var d3 := session.Remove(PkceVerifierKey, removals.verifier);
      if storeSubject.Err? {
        resp := Status(InternalServerError, "Could not start session.");
      } else {
        resp := TemporaryRedirect("/");
      }
    case Err(_) =>
      resp := Status(InternalServerError, "Authentication not successful.");
  }

  // ---------------------------------------------------------------------------
  // Gate

  const ApiPrefix := "/api/"

  /** Whether `auth_middleware` treats a request as an API request. `uri` is the
      request target as rendered to a string, not the routed path: for a target in
      absolute form ("http://host/api/...") the string starts with the scheme. */
  predicate IsApiRequest(uri: string)
  {
    |ApiPrefix| <= |uri| && uri[..|ApiPrefix|] == ApiPrefix
  }

  /** `auth_middleware`'s decision on the rendered request target `uri`: a request
      whose target does not start with "/api/" goes through whatever the session
      holds; one that does goes through exactly when the subject read succeeds and
      finds a value, and is answered 401 otherwise. */
  function Gate(m: Entries, uri: string, fault: Fault): (d: GateDecision)
    ensures !IsApiRequest(uri) ==> d == Forward
    ensures d == Forward <==> !IsApiRequest(uri) || (fault.None? && SubjectKey in m)
    ensures d.Reject? ==> d.status == Unauthorized
  {
    if !IsApiRequest(uri) then Forward
    else
      match StoreGet(m, SubjectKey, fault)
      case Ok(Some(_)) => Forward
      case _ => Reject(Unauthorized)
  }

  /** The test is on the rendered target, so a target in absolute form, which
      starts with its scheme rather than "/", is never an API request and goes
      through whatever the session holds, even when its path is under "/api/". */
  lemma AbsoluteFormTargetSkipsGate(m: Entries, uri: string, fault: Fault)
    requires |uri| > 0 && uri[0] != '/'
    ensures !IsApiRequest(uri)
    ensures Gate(m, uri, fault) == Forward
  {
    assert uri[0] != ApiPrefix[0];
  }

  method AuthMiddleware(session: Session, uri: string, fault: Fault) returns (d: GateDecision)
    ensures d == Gate(session.entries, uri, fault)
  {
    if !IsApiRequest(uri) {
      return Forward;
    }
    var subject := session.Get(SubjectKey, fault);
    match subject
    case Ok(Some(_)) =>
      d := Forward;
    case _ =>
      d := Reject(Unauthorized);
  }
}
