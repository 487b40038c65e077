/**
  The login flow across requests. A session sees a sequence of requests (login,
  callback, requests that pass the gate); each changes the record as its handler
  does. The lemmas here state what the sequence guarantees: a subject is only ever
  stored by a callback whose checks passed, so the gate only admits API requests
  after such a callback; a login followed by a matching callback signs the user in;
  a replayed callback changes nothing; a failed callback leaves the flow secrets in
  place for another attempt. The last part relates the handlers' keys to those of
  the session repository.
 */
module LoginFlow {
  import opened Wrappers
  import opened SessionStore
  import opened Login
  import SessionRepository

  /** One request against the session, with everything outside the model that
      decides its outcome. */
  datatype Request =
    | BeginLogin(auth: AuthorizationRequest, inserts: FlowFaults, save: Fault)
    | Callback(httpClientBuilt: bool, provider: Provider, params: CallbackParameters,
               readFaults: FlowFaults, subjectInsert: Fault, removals: FlowFaults)
    | Guarded(uri: string, subjectRead: Fault)

  /** The outcome of the callback's checks on record `m`. */
  function Details(m: Entries, req: Request): Result<string, AuthError>
    requires req.Callback?
  {
    UserDetails(req.httpClientBuilt, ReadFlow(m, req.readFaults), req.provider, req.params)
  }

  /** The record after one request. The gate only reads; what the wrapped API
      handlers do is outside this model. */
  function Step(m: Entries, req: Request): Entries
  {
    match req
    case BeginLogin(auth, inserts, _) => LoginEffect(m, auth, inserts)
    case Callback(_, _, _, _, subjectInsert, removals) => CallbackEffect(m, Details(m, req), subjectInsert, removals)
    case Guarded(_, _) => m
  }

  /** The record after a sequence of requests, oldest first. */
  function Run(m0: Entries, trace: seq<Request>): Entries
    decreases |trace|
  {
    if |trace| == 0 then m0 else Step(Run(m0, trace[..|trace| - 1]), trace[|trace| - 1])
  }

  /** The subject a request stores, if it stores one. */
  function SubjectStored(m: Entries, req: Request): Option<string>
  {
    if req.Callback? && Details(m, req).Ok? && req.subjectInsert.None? then Some(Details(m, req).value)
    else None
  }

  /** Storing a subject takes a callback whose checks all passed: the stored CSRF
      token equals the received state, and the provider accepted the code with the
      stored verifier and nonce and named this subject. */
  lemma SubjectStoredMeansVerified(m: Entries, req: Request)
    requires SubjectStored(m, req).Some?
    ensures req.Callback? && req.httpClientBuilt
    ensures CsrfTokenKey in m && NonceKey in m && PkceVerifierKey in m
    ensures m[CsrfTokenKey] == req.params.state
    ensures ProviderAccepts(req.provider, req.params.code, m[PkceVerifierKey], m[NonceKey], SubjectStored(m, req).value)
  {
  }

  /** A request either stores a subject or leaves the stored one as it was. */
  lemma StepSubject(m: Entries, req: Request)
    ensures Lookup(Step(m, req), SubjectKey) ==
              if SubjectStored(m, req).Some? then SubjectStored(m, req) else Lookup(m, SubjectKey)
  {
  }

  /** No request of `trace` after position `i` stores a subject. */
  predicate NoStoreAfter(m0: Entries, trace: seq<Request>, i: nat)
  {
    forall j | i < j < |trace| :: SubjectStored(Run(m0, trace[..j]), trace[j]).None?
  }

  /** Appending a request that stores no subject keeps `NoStoreAfter`. */
  lemma NoStoreAfterExtends(m0: Entries, trace: seq<Request>, i: nat)
    requires |trace| > 0
    requires NoStoreAfter(m0, trace[..|trace| - 1], i)
    requires SubjectStored(Run(m0, trace[..|trace| - 1]), trace[|trace| - 1]).None?
    ensures NoStoreAfter(m0, trace, i)
  {
    var pre := trace[..|trace| - 1];
    forall j | i < j < |trace|
      ensures SubjectStored(Run(m0, trace[..j]), trace[j]).None?
    {
      if j < |trace| - 1 {
        assert pre[..j] == trace[..j] && pre[j] == trace[j];
      }
    }
  }

  /** In a session that started without a subject, the subject present after a
      sequence of requests is the one stored by the last callback that stored one. */
  lemma {:induction false} SubjectComesFromLastCallback(m0: Entries, trace: seq<Request>)
    requires SubjectKey !in m0
    requires SubjectKey in Run(m0, trace)
    ensures exists i ::
              && 0 <= i < |trace|
              && SubjectStored(Run(m0, trace[..i]), trace[i]) == Some(Run(m0, trace)[SubjectKey])
              && NoStoreAfter(m0, trace, i)
    decreases |trace|
  {
    var n := |trace|;
    assert n != 0;
    var pre := trace[..n - 1];
    var last := trace[n - 1];
    var before := Run(m0, pre);
    var after := Run(m0, trace);
    assert after == Step(before, last);
    StepSubject(before, last);
    if SubjectStored(before, last).Some? {
      assert SubjectStored(before, last) == Some(after[SubjectKey]);
      assert NoStoreAfter(m0, trace, n - 1);
    } else {
      assert SubjectKey in before && before[SubjectKey] == after[SubjectKey];
      SubjectComesFromLastCallback(m0, pre);
      var i :| && 0 <= i < |pre|
               && SubjectStored(Run(m0, pre[..i]), pre[i]) == Some(before[SubjectKey])
               && NoStoreAfter(m0, pre, i);
      assert pre[..i] == trace[..i] && pre[i] == trace[i];
      assert SubjectStored(Run(m0, trace[..i]), trace[i]) == Some(after[SubjectKey]);
      NoStoreAfterExtends(m0, trace, i);
    }
  }

  /** The gate admits an API request in a session that started signed out only
      after some callback in between passed all its checks and stored a subject. */
  lemma ApiAccessNeedsVerifiedCallback(m0: Entries, trace: seq<Request>, uri: string, fault: Fault)
    requires SubjectKey !in m0
    requires IsApiRequest(uri)
    requires Gate(Run(m0, trace), uri, fault) == Forward
    ensures exists i :: 0 <= i < |trace| && SubjectStored(Run(m0, trace[..i]), trace[i]).Some?
  {
    SubjectComesFromLastCallback(m0, trace);
  }

  /** A login whose writes all went through, followed by a callback carrying the
      CSRF token as its state and a code the provider accepts for `subject`, signs
      the user in: the subject is stored, the flow secrets are gone, and the gate
      admits API requests. */
  lemma SignInRoundTrip(m: Entries, auth: AuthorizationRequest, p: Provider, code: string, subject: string, uri: string)
    requires ProviderAccepts(p, code, auth.pkceVerifier, auth.nonce, subject)
    requires IsApiRequest(uri)
    ensures var trace := [BeginLogin(auth, NoFlowFaults, None),
                          Callback(true, p, CallbackParameters(code, auth.csrfToken), NoFlowFaults, None, NoFlowFaults)];
            var signedIn := Run(m, trace);
            && Lookup(signedIn, SubjectKey) == Some(subject)
            && CsrfTokenKey !in signedIn && NonceKey !in signedIn && PkceVerifierKey !in signedIn
            && Gate(signedIn, uri, None) == Forward
  {
  }

  /** Replaying a callback after one that succeeded and removed the flow secrets is
      refused and changes nothing. */
  lemma ReplayChangesNothing(m: Entries, first: Request, replay: Request)
    requires first.Callback? && Details(m, first).Ok? && first.removals.AllWentThrough()
    requires replay.Callback?
    ensures replay.httpClientBuilt ==> Details(Step(m, first), replay) == Err(MissingFlowDetails)
    ensures Details(Step(m, first), replay).Err?
    ensures Step(Step(m, first), replay) == Step(m, first)
  {
  }

  /** A failed callback changes nothing: the flow secrets it read stay in the session. */
  lemma FailedCallbackKeepsFlow(m: Entries, req: Request, readFaults: FlowFaults)
    requires req.Callback? && Details(m, req).Err?
    ensures Step(m, req) == m
    ensures ReadFlow(Step(m, req), readFaults) == ReadFlow(m, readFaults)
  {
  }

  /** Because a failed callback keeps the flow secrets, a later callback that reads
      them, carries the stored CSRF token as its state and a code the provider
      accepts with the stored verifier and nonce signs in. */
  lemma RetryAfterFailedCallback(m: Entries, failed: Request, retry: Request, subject: string)
    requires failed.Callback? && Details(m, failed).Err?
    requires retry.Callback? && retry.httpClientBuilt && retry.readFaults == NoFlowFaults
    requires CsrfTokenKey in m && NonceKey in m && PkceVerifierKey in m
    requires retry.params.state == m[CsrfTokenKey]
    requires ProviderAccepts(retry.provider, retry.params.code, m[PkceVerifierKey], m[NonceKey], subject)
    ensures Details(Step(m, failed), retry) == Ok(subject)
    ensures retry.subjectInsert.None? ==> Lookup(Step(Step(m, failed), retry), SubjectKey) == Some(subject)
  {
  }

  // ---------------------------------------------------------------------------
  // The handlers' keys against the session repository's

  /** The subject key is shared: a subject stored by the callback is what the
      repository's subject getter returns. */
  lemma RepositoryReadsCallbackSubject(m: Entries, details: Result<string, AuthError>, removals: FlowFaults)
    requires details.Ok?
    ensures SubjectKey == SessionRepository.SubjectKey
    ensures SessionRepository.Read(CallbackEffect(m, details, None, removals), SessionRepository.UserSubject, None)
              == Ok(Some(details.value))
  {
  }

  /** The three flow keys of the handlers and of the repository are six different
      keys. */
  lemma FlowKeysDisagree()
    ensures {CsrfTokenKey, NonceKey, PkceVerifierKey} !!
            {SessionRepository.CsrfStateKey, SessionRepository.NonceKey, SessionRepository.PkceVerifierKey}
  {
  }

  /** So the repository's flow getters do not see what `login_handler` stored... */
  lemma RepositoryMissesLoginFlow(m: Entries, auth: AuthorizationRequest, inserts: FlowFaults,
                                  f: SessionRepository.Field, fault: Fault)
    requires f != SessionRepository.UserSubject
    ensures SessionRepository.Read(LoginEffect(m, auth, inserts), f, fault) == SessionRepository.Read(m, f, fault)
  {
  }

  /** ...and `clear_oidc_flow_details` leaves the handlers' flow secrets where they were. */
  lemma RepositoryClearKeepsLoginFlow(m: Entries, clearFaults: FlowFaults, readFaults: FlowFaults)
    ensures ReadFlow(SessionRepository.ClearFlow(m, clearFaults), readFaults) == ReadFlow(m, readFaults)
  {
  }
}
