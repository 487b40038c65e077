/**
  A typed facade over the session: four fields (the signed-in user's subject and
  the three secrets of a login in progress), each kept under a fixed key, with a
  getter and a setter per field and one call that clears the three flow secrets.
  Every session error is handed on as a `SessionRepositoryError` carrying the
  session error's text.
 */
module SessionRepository {
  import opened Wrappers
  import opened SessionStore

  const SubjectKey := "OIDC_SUBJECT_KEY"
  const CsrfStateKey := "OIDC_CSRF_STATE_KEY"
  const NonceKey := "OIDC_NONCE_KEY"
  const PkceVerifierKey := "OIDC_PKCE_VERIFIER_KEY"

  datatype SessionRepositoryError = SessionRepositoryError(description: string)

  /** The `?` conversion of a session result: the value passes through, an error
      becomes a `SessionRepositoryError` with the same text. */
  function FromSessionResult<T>(r: Result<T, string>): (s: Result<T, SessionRepositoryError>)
    ensures s.Ok? <==> r.Ok?
    ensures r.Ok? ==> s.value == r.value
    ensures r.Err? ==> s.error.description == r.error
  {
    match r
    case Ok(v) => Ok(v)
    case Err(e) => Err(SessionRepositoryError(e))
  }

  /** The four fields the repository keeps. */
  datatype Field = UserSubject | CsrfToken | Nonce | PkceVerifier

  function KeyOf(f: Field): string
  {
    match f
    case UserSubject => SubjectKey
    case CsrfToken => CsrfStateKey
    case Nonce => NonceKey
    case PkceVerifier => PkceVerifierKey
  }

  /** No two fields share a key, so storing one field never overwrites another. */
  lemma KeysPairwiseDistinct(f: Field, g: Field)
    ensures KeyOf(f) == KeyOf(g) <==> f == g
  {
  }

  /** What a getter returns on record `m`. */
  function Read(m: Entries, f: Field, fault: Fault): (r: Result<Option<string>, SessionRepositoryError>)
    ensures fault.Some? ==> r == Err(SessionRepositoryError(fault.value))
    ensures fault.None? ==> r.Ok? && (r.value.Some? <==> KeyOf(f) in m)
    ensures fault.None? && KeyOf(f) in m ==> r.value.value == m[KeyOf(f)]
  {
    FromSessionResult(StoreGet(m, KeyOf(f), fault))
  }

  /** The record after a setter. */
  function Write(m: Entries, f: Field, value: string, fault: Fault): Entries
  {
    Inserted(m, KeyOf(f), value, fault)
  }

  /** A setter reports success exactly when the insert went through. */
  function WriteResult(fault: Fault): (r: Result<(), SessionRepositoryError>)
    ensures r.Ok? <==> fault.None?
    ensures fault.Some? ==> r.error.description == fault.value
  {
    FromSessionResult(Outcome(fault))
  }

  /** The record after `clear_oidc_flow_details`: every removal that went through
      took its key away. */
  function ClearFlow(m: Entries, faults: FlowFaults): (r: Entries)
    ensures faults.csrf.None? ==> CsrfStateKey !in r
    ensures faults.nonce.None? ==> NonceKey !in r
    ensures faults.verifier.None? ==> PkceVerifierKey !in r
    ensures faults.csrf.Some? ==> Lookup(r, CsrfStateKey) == Lookup(m, CsrfStateKey)
    ensures faults.nonce.Some? ==> Lookup(r, NonceKey) == Lookup(m, NonceKey)
    ensures faults.verifier.Some? ==> Lookup(r, PkceVerifierKey) == Lookup(m, PkceVerifierKey)
    ensures Lookup(r, SubjectKey) == Lookup(m, SubjectKey)
    ensures forall k | k != CsrfStateKey && k != NonceKey && k != PkceVerifierKey :: Lookup(r, k) == Lookup(m, k)
    ensures forall k | k in r :: k in m && r[k] == m[k]
  {
    Removed(Removed(Removed(m, CsrfStateKey, faults.csrf), NonceKey, faults.nonce),
            PkceVerifierKey, faults.verifier)
  }

  /** `clear_oidc_flow_details` succeeds only when all three removals did; otherwise
      it reports the error of the first removal that failed. */
  function ClearResult(faults: FlowFaults): (r: Result<(), SessionRepositoryError>)
    ensures r.Ok? <==> faults.AllWentThrough()
    ensures faults.csrf.Some? ==> r == Err(SessionRepositoryError(faults.csrf.value))
    ensures r.Err? ==> Some(r.error.description) in {faults.csrf, faults.nonce, faults.verifier}
  {
    if faults.csrf.Some? then Err(SessionRepositoryError(faults.csrf.value))
    else if faults.nonce.Some? then Err(SessionRepositoryError(faults.nonce.value))
    else if faults.verifier.Some? then Err(SessionRepositoryError(faults.verifier.value))
    else Ok(())
  }

  /** Reading a field right after saving it gives back the saved value. */
  lemma ReadAfterWrite(m: Entries, f: Field, value: string)
    ensures Read(Write(m, f, value, None), f, None) == Ok(Some(value))
  {
  }

  /** Saving one field leaves what every other getter returns as it was. */
  lemma WriteFrame(m: Entries, f: Field, g: Field, value: string, fault: Fault, readFault: Fault)
    requires f != g
    ensures Read(Write(m, f, value, fault), g, readFault) == Read(m, g, readFault)
  {
  }

  class TowerSessionRepository {
    const session: Session

    constructor (session: Session)
      ensures this.session == session
    {
      this.session := session;
    }

    method GetOidcUserSubject(fault: Fault) returns (r: Result<Option<string>, SessionRepositoryError>)
      ensures r == Read(session.entries, UserSubject, fault)
    {
      var got := session.Get(SubjectKey, fault);
      r := FromSessionResult(got);
    }

    method GetOidcCrsfToken(fault: Fault) returns (r: Result<Option<string>, SessionRepositoryError>)
      ensures r == Read(session.entries, CsrfToken, fault)
    {
      var got := session.Get(CsrfStateKey, fault);
      r := FromSessionResult(got);
    }

    method GetOidcNonceKey(fault: Fault) returns (r: Result<Option<string>, SessionRepositoryError>)
      ensures r == Read(session.entries, Nonce, fault)
    {
      var got := session.Get(NonceKey, fault);
      r := FromSessionResult(got);
    }

    method GetPkceVerifier(fault: Fault) returns (r: Result<Option<string>, SessionRepositoryError>)
      ensures r == Read(session.entries, PkceVerifier, fault)
    {
      var got := session.Get(PkceVerifierKey, fault);
      r := FromSessionResult(got);
    }

    method SaveOidcUserSubject(subject: string, fault: Fault) returns (r: Result<(), SessionRepositoryError>)
      modifies session
      ensures session.entries == Write(old(session.entries), UserSubject, subject, fault)
      ensures r == WriteResult(fault)
    {
      var put := session.Insert(SubjectKey, subject, fault);
      r := FromSessionResult(put);
    }

    method SaveOidcCrsfToken(csrfToken: string, fault: Fault) returns (r: Result<(), SessionRepositoryError>)
      modifies session
      ensures session.entries == Write(old(session.entries), CsrfToken, csrfToken, fault)
      ensures r == WriteResult(fault)
    {
      var put := session.Insert(CsrfStateKey, csrfToken, fault);
      r := FromSessionResult(put);
    }

    method SaveOidcNonceKey(nonce: string, fault: Fault) returns (r: Result<(), SessionRepositoryError>)
      modifies session
      ensures session.entries == Write(old(session.entries), Nonce, nonce, fault)
      ensures r == WriteResult(fault)
    {
      var put := session.Insert(NonceKey, nonce, fault);
      r := FromSessionResult(put);
    }

    method SavePkceVerifier(verifier: string, fault: Fault) returns (r: Result<(), SessionRepositoryError>)
      modifies session
      ensures session.entries == Write(old(session.entries), PkceVerifier, verifier, fault)
      ensures r == WriteResult(fault)
    {
      var put := session.Insert(PkceVerifierKey, verifier, fault);
      r := FromSessionResult(put);
    }

    method ClearOidcFlowDetails(faults: FlowFaults) returns (r: Result<(), SessionRepositoryError>)
      modifies session
      ensures session.entries == ClearFlow(old(session.entries), faults)
      ensures r == ClearResult(faults)
    {
      var d1 := session.Remove(CsrfStateKey, faults.csrf);
      var d2 := session.Remove(NonceKey, faults.nonce);
      var d3 := session.Remove(PkceVerifierKey, faults.verifier);
      if d1.Err? {
        r := Err(SessionRepositoryError(d1.error));
      } else if d2.Err? {
        r := Err(SessionRepositoryError(d2.error));
      } else if d3.Err? {
        r := Err(SessionRepositoryError(d3.error));
      } else {
        r := Ok(());
      }
    }
  }
}
