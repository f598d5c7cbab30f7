/**
 * The Granola MCP client's OAuth bookkeeping: the session table, the index
 * from OAuth `state` values to session ids, the provider the MCP SDK calls
 * back into, and the callback check of section 10.12 of RFC 6749 (the
 * `state` returned to the redirect URI must be the one this client issued).
 * The SDK's calls into the provider are replayed from a list; the transport's
 * connect, token exchange and operation are injected outcomes.
 */
module McpClient {
  import opened Common
  import opened JsValue

  const UnresolvedSessionError: string := "Unable to resolve a Granola session for this OAuth callback."
  const MissingStateError: string := "Missing OAuth state in Granola callback."
  const StateMismatchError: string := "Granola OAuth state validation failed."
  const MissingVerifierError: string := "Missing PKCE code verifier for Granola OAuth session."
  const NoAuthUrlError: string := "Granola OAuth was required but no authorization URL was captured."

  /** A snapshot of one session's fields. */
  datatype Fields = Fields(
    clientInformation: Option<Json>, tokens: Option<Json>, codeVerifier: Option<string>,
    pendingAuthorizationUrl: Option<string>, expectedState: Option<string>)

  const EmptyFields := Fields(None, None, None, None, None)

  /** One OAuth session, shared by reference between the table and every provider built for it. */
  class Session {
    var clientInformation: Option<Json>
    var tokens: Option<Json>
    var codeVerifier: Option<string>
    var pendingAuthorizationUrl: Option<string>
    var expectedState: Option<string>

    constructor()
      ensures Snapshot() == EmptyFields
    {
      clientInformation, tokens, codeVerifier, pendingAuthorizationUrl, expectedState := None, None, None, None, None;
    }

    function Snapshot(): Fields
      reads this
    {
      Fields(clientInformation, tokens, codeVerifier, pendingAuthorizationUrl, expectedState)
    }
  }

  /** A call the MCP SDK makes on the provider while it connects or exchanges a code. */
  datatype ProviderCall =
    | SaveClientInformation(information: Json)
    | SaveTokens(saved: Json)
    | SaveCodeVerifier(verifier: string)
    | RedirectToAuthorization(url: string)
    | IssueState(issued: string)

  /** `removeTrackedState`: only a truthy state is removed from the index. */
  function Untrack(index: map<string, string>, state: Option<string>): (r: map<string, string>)
    ensures Truthy(state) ==> state.value !in r
    ensures forall s :: s in r <==> s in index && !(Truthy(state) && s == state.value)
    ensures forall s :: s in r ==> r[s] == index[s]
  {
    if Truthy(state) then index - {state.value} else index
  }

  /** The session fields and state index after one provider call on session `sessionId`. */
  function AfterCall(f: Fields, index: map<string, string>, sessionId: string, call: ProviderCall): (Fields, map<string, string>) {
    match call
    case SaveClientInformation(information) => (f.(clientInformation := Some(information)), index)
    case SaveTokens(saved) => (f.(tokens := Some(saved)), index)
    case SaveCodeVerifier(verifier) => (f.(codeVerifier := Some(verifier)), index)
    case RedirectToAuthorization(url) => (f.(pendingAuthorizationUrl := Some(url)), index)
    case IssueState(issued) => (f.(expectedState := Some(issued)), Untrack(index, f.expectedState)[issued := sessionId])
  }

  /** The session fields and state index after a list of provider calls, in order. */
  function AfterCalls(f: Fields, index: map<string, string>, sessionId: string, calls: seq<ProviderCall>): (Fields, map<string, string>) {
    if |calls| == 0 then (f, index)
    else
      var before := AfterCalls(f, index, sessionId, calls[..|calls| - 1]);
      AfterCall(before.0, before.1, sessionId, calls[|calls| - 1])
  }

  /** Tokens read back what the last `saveTokens` stored, whatever other calls came after it. */
  lemma {:induction false} LastSaveWins(f: Fields, index: map<string, string>, sessionId: string, calls: seq<ProviderCall>, k: nat)
    requires k < |calls|
    requires forall j :: k < j < |calls| ==> !calls[j].SaveTokens?
    requires calls[k].SaveTokens?
    ensures AfterCalls(f, index, sessionId, calls).0.tokens == Some(calls[k].saved)
    decreases |calls|
  {
    if k < |calls| - 1 {
      LastSaveWins(f, index, sessionId, calls[..|calls| - 1], k);
    }
  }

  /** Issuing a state indexes only that state for the session and retires the previous one. */
  lemma IssueStateRetiresPrevious(f: Fields, index: map<string, string>, sessionId: string, issued: string)
    requires Truthy(f.expectedState) && f.expectedState.value != issued
    ensures var after := AfterCall(f, index, sessionId, IssueState(issued));
      after.0.expectedState == Some(issued) && after.1[issued] == sessionId && f.expectedState.value !in after.1
  {
  }

  predicate StatesNonEmpty(calls: seq<ProviderCall>) {
    forall j :: 0 <= j < |calls| ==> calls[j].IssueState? ==> calls[j].issued != ""
  }

  /** What `withGranolaClient` returns when it does not throw. */
  datatype ProxyResult = ProxyOk(data: Json) | AuthRequired(authUrl: string)

  /** How connecting and running the operation ended. */
  datatype ConnectOutcome = Connected(data: Json) | Unauthorized | Failed(message: string)

  /** The module-level session table and state index. */
  class SessionStore {
    var sessions: map<string, Session>
    var sessionIdsByState: map<string, string>

    /**
     * Each id has its own session object; the index holds only non-empty states, and every
     * indexed state is the expected state of the session it names, so a session has at most
     * one indexed state.
     */
    ghost predicate Valid()
      reads this, sessions.Values
    {
      && (forall a, b :: a in sessions && b in sessions && a != b ==> sessions[a] != sessions[b])
      && "" !in sessionIdsByState
      && (forall s :: s in sessionIdsByState ==>
            sessionIdsByState[s] in sessions && sessions[sessionIdsByState[s]].expectedState == Some(s))
    }

    constructor()
      ensures Valid() && sessions == map[] && sessionIdsByState == map[]
    {
      sessions, sessionIdsByState := map[], map[];
    }

    lemma AtMostOneStatePerSession(s1: string, s2: string)
      requires Valid() && s1 in sessionIdsByState && s2 in sessionIdsByState
      requires sessionIdsByState[s1] == sessionIdsByState[s2]
      ensures s1 == s2
    {
    }

    /** `getOrCreateSession`: the existing session, or a new empty one inserted under the id. */
    method GetOrCreateSession(sessionId: string) returns (session: Session)
      requires Valid()
      modifies this
      ensures Valid()
      ensures sessionIdsByState == old(sessionIdsByState)
      ensures sessionId in sessions && sessions[sessionId] == session
      ensures sessionId in old(sessions) ==> sessions == old(sessions)
      ensures sessionId !in old(sessions) ==>
        fresh(session) && sessions == old(sessions)[sessionId := session] && session.Snapshot() == EmptyFields
    {
      if sessionId in sessions {
        return sessions[sessionId];
      }
      session := new Session();
      sessions := sessions[sessionId := session];
    }

    /** `getSessionIdForOAuthState`: nothing for a null or empty state, else the indexed session id. */
    function SessionIdForOAuthState(state: Option<string>): (r: Option<string>)
      reads this
      ensures !Truthy(state) ==> r.None?
      ensures r.Some? <==> Truthy(state) && state.value in sessionIdsByState
      ensures r.Some? ==> r.value == sessionIdsByState[state.value]
    {
      if !Truthy(state) then None
      else if state.value in sessionIdsByState then Some(sessionIdsByState[state.value])
      else None
    }

    /** `options.sessionId ?? getSessionIdForOAuthState(options.state ?? null)`: an explicit id wins, even an empty one. */
    function ResolveSessionId(sessionId: Option<string>, state: Option<string>): (r: Option<string>)
      reads this
      ensures sessionId.Some? ==> r == sessionId
      ensures sessionId.None? && !Truthy(state) ==> r.None?
      ensures sessionId.None? && r.Some? ==> state.Some? && state.value in sessionIdsByState && r.value == sessionIdsByState[state.value]
    {
      if sessionId.Some? then sessionId else SessionIdForOAuthState(state)
    }

    /** `hasGranolaConnection`: the session exists and holds tokens. */
    predicate HasGranolaConnection(sessionId: string): (r: bool)
      reads this, sessions.Values
      ensures sessionId !in sessions ==> !r
      ensures r ==> sessions[sessionId].tokens.Some?
    {
      sessionId in sessions && sessions[sessionId].tokens.Some?
    }

    /**
     * `withGranolaClient`: builds a provider for the session, lets the SDK call into it, and
     * maps the outcome; an unauthorized connection needs the URL the SDK asked to redirect to.
     */
    method WithGranolaClient(sessionId: string, callbackUrl: string, calls: seq<ProviderCall>, outcome: ConnectOutcome)
      returns (r: Result<ProxyResult>)
      requires Valid() && StatesNonEmpty(calls)
      modifies this, sessions.Values
      ensures Valid()
      ensures sessionId in sessions && sessions.Keys == old(sessions.Keys) + {sessionId}
      ensures var before := if sessionId in old(sessions) then old(sessions[sessionId].Snapshot()) else EmptyFields;
        (sessions[sessionId].Snapshot(), sessionIdsByState) == AfterCalls(before, old(sessionIdsByState), sessionId, calls)
      ensures forall other :: other in old(sessions) && other != sessionId ==>
        sessions[other] == old(sessions[other]) && sessions[other].Snapshot() == old(sessions[other].Snapshot())
      ensures outcome.Connected? ==> r == Ok(ProxyOk(outcome.data))
      ensures outcome.Failed? ==> r == Err(outcome.message)
      ensures outcome.Unauthorized? && Truthy(sessions[sessionId].pendingAuthorizationUrl) ==>
        r == Ok(AuthRequired(sessions[sessionId].pendingAuthorizationUrl.value))
      ensures outcome.Unauthorized? && !Truthy(sessions[sessionId].pendingAuthorizationUrl) ==> r == Err(NoAuthUrlError)
    {
      var provider := new GranolaOAuthProvider(this, sessionId, callbackUrl);
      provider.Replay(calls);
      match outcome
      case Connected(data) =>
        r := Ok(ProxyOk(data));
      case Failed(message) =>
        r := Err(message);
      case Unauthorized =>
        var authUrl := sessions[sessionId].pendingAuthorizationUrl;
        if !Truthy(authUrl) {
          r := Err(NoAuthUrlError);
        } else {
          r := Ok(AuthRequired(authUrl.value));
        }
    }

    /**
     * `completeGranolaAuthorization`: resolves the session from the explicit id or the state
     * index, checks the callback state against the expected one before any transport work,
     * and on success clears the pending URL, the code verifier and the expected state.
     * `exchange` is `None` when the code exchange and connection succeed, else the error.
     */
    method CompleteGranolaAuthorization(
      sessionId: Option<string>, state: Option<string>, callbackUrl: string,
      calls: seq<ProviderCall>, exchange: Option<string>)
      returns (r: Result<string>, transportOpened: bool)
      requires Valid() && StatesNonEmpty(calls)
      modifies this, sessions.Values
      ensures Valid()
      ensures !Truthy(old(ResolveSessionId(sessionId, state))) ==> r == Err(UnresolvedSessionError) && !transportOpened
      ensures var id := old(ResolveSessionId(sessionId, state));
        Truthy(id) && id.value in old(sessions) && Truthy(old(sessions[id.value].expectedState)) ==>
          && (!Truthy(state) ==> r == Err(MissingStateError) && !transportOpened)
          && (Truthy(state) && state != old(sessions[id.value].expectedState) ==> r == Err(StateMismatchError) && !transportOpened)
      ensures r.Ok? ==> r.value in sessions && Some(r.value) == old(ResolveSessionId(sessionId, state))
      ensures r.Ok? && r.value in old(sessions) && Truthy(old(sessions[r.value].expectedState)) ==>
        state == old(sessions[r.value].expectedState)
      ensures r.Ok? ==> var f := sessions[r.value].Snapshot();
        f.pendingAuthorizationUrl.None? && f.codeVerifier.None? && f.expectedState.None?
      ensures r.Ok? ==> forall s :: s in sessionIdsByState ==> sessionIdsByState[s] != r.value
      ensures r.Ok? ==>
        var before := if r.value in old(sessions) then old(sessions[r.value].Snapshot()) else EmptyFields;
        var after := AfterCalls(before, old(sessionIdsByState), r.value, calls);
        && sessions[r.value].Snapshot()
          == after.0.(pendingAuthorizationUrl := None, codeVerifier := None, expectedState := None)
        && sessionIdsByState == Untrack(after.1, after.0.expectedState)
      ensures old(sessions.Keys) <= sessions.Keys
      ensures forall other :: other in old(sessions) && Some(other) != old(ResolveSessionId(sessionId, state)) ==>
        sessions[other] == old(sessions[other]) && sessions[other].Snapshot() == old(sessions[other].Snapshot())
      ensures exchange.Some? && transportOpened ==> r == Err(exchange.value)
      ensures !transportOpened ==> sessionIdsByState == old(sessionIdsByState)
    {
      var resolved := ResolveSessionId(sessionId, state);
      if !Truthy(resolved) {
        return Err(UnresolvedSessionError), false;
      }
      var id := resolved.value;
      var session := GetOrCreateSession(id);
      if Truthy(session.expectedState) && !Truthy(state) {
        return Err(MissingStateError), false;
      }
      if Truthy(session.expectedState) && state != session.expectedState {
        return Err(StateMismatchError), false;
      }
      var provider := new GranolaOAuthProvider(this, id, callbackUrl);
      transportOpened := true;
      provider.Replay(calls);
      if exchange.Some? {
        return Err(exchange.value), true;
      }
      ClearAuthorization(id, session);
      r := Ok(id);
    }

    /** The success path of the callback: the pending URL, the verifier and the expected state are dropped. */
    method ClearAuthorization(id: string, session: Session)
      requires Valid() && id in sessions && sessions[id] == session
      modifies this, session
      ensures Valid() && sessions == old(sessions)
      ensures session.Snapshot()
        == old(session.Snapshot()).(pendingAuthorizationUrl := None, codeVerifier := None, expectedState := None)
      ensures sessionIdsByState == Untrack(old(sessionIdsByState), old(session.expectedState))
      ensures forall s :: s in sessionIdsByState ==> sessionIdsByState[s] != id
    {
      session.pendingAuthorizationUrl := None;
      session.codeVerifier := None;
      sessionIdsByState := Untrack(sessionIdsByState, session.expectedState);
      session.expectedState := None;
    }
  }

  /** The provider the SDK calls back into; it works on the session the table holds for its id. */
  class GranolaOAuthProvider {
    const store: SessionStore
    const sessionId: string
    const callbackUrl: string
    const session: Session

    ghost predicate Valid()
      reads this, store, store.sessions.Values
    {
      store.Valid() && sessionId in store.sessions && store.sessions[sessionId] == session
    }

    constructor(store: SessionStore, sessionId: string, callbackUrl: string)
      requires store.Valid()
      modifies store
      ensures Valid() && this.store == store && this.sessionId == sessionId && this.callbackUrl == callbackUrl
      ensures store.sessionIdsByState == old(store.sessionIdsByState)
      ensures sessionId in old(store.sessions) ==> store.sessions == old(store.sessions)
      ensures sessionId !in old(store.sessions) ==>
        fresh(session) && store.sessions == old(store.sessions)[sessionId := session] && session.Snapshot() == EmptyFields
    {
      var s := store.GetOrCreateSession(sessionId);
      this.store := store;
      this.sessionId := sessionId;
      this.callbackUrl := callbackUrl;
      this.session := s;
    }

    /** `state()`: retires the previous expected state and indexes the fresh one for this session. */
    method IssueState(issued: string) returns (state: string)
      requires Valid() && issued != ""
      modifies store, session
      ensures Valid() && state == issued
      ensures store.sessions == old(store.sessions)
      ensures (session.Snapshot(), store.sessionIdsByState)
        == AfterCall(old(session.Snapshot()), old(store.sessionIdsByState), sessionId, ProviderCall.IssueState(issued))
    {
      store.sessionIdsByState := Untrack(store.sessionIdsByState, session.expectedState);
      session.expectedState := Some(issued);
      store.sessionIdsByState := store.sessionIdsByState[issued := sessionId];
      state := issued;
    }

    /** `clientInformation()`: what is stored for this provider's session id in the store. */
    function ClientInformation(): (r: Option<Json>)
      requires Valid()
      reads this, store, store.sessions.Values
      ensures r == store.sessions[sessionId].clientInformation
    {
      session.clientInformation
    }

    method SaveClientInformation(information: Json)
      requires Valid()
      modifies session
      ensures Valid() && ClientInformation() == Some(information)
      ensures session.Snapshot() == old(session.Snapshot()).(clientInformation := Some(information))
    {
      session.clientInformation := Some(information);
    }

    /** `tokens()`: present exactly when the store reports the session as connected. */
    function Tokens(): (r: Option<Json>)
      requires Valid()
      reads this, store, store.sessions.Values
      ensures r == store.sessions[sessionId].tokens
      ensures r.Some? <==> store.HasGranolaConnection(sessionId)
    {
      session.tokens
    }

    method SaveTokens(saved: Json)
      requires Valid()
      modifies session
      ensures Valid() && Tokens() == Some(saved) && store.HasGranolaConnection(sessionId)
      ensures session.Snapshot() == old(session.Snapshot()).(tokens := Some(saved))
    {
      session.tokens := Some(saved);
    }

    method RedirectToAuthorization(url: string)
      requires Valid()
      modifies session
      ensures Valid()
      ensures session.Snapshot() == old(session.Snapshot()).(pendingAuthorizationUrl := Some(url))
    {
      session.pendingAuthorizationUrl := Some(url);
    }

    method SaveCodeVerifier(verifier: string)
      requires Valid()
      modifies session
      ensures Valid() && CodeVerifier() == if verifier == "" then Err(MissingVerifierError) else Ok(verifier)
      ensures session.Snapshot() == old(session.Snapshot()).(codeVerifier := Some(verifier))
    {
      session.codeVerifier := Some(verifier);
    }

    /** `codeVerifier()`: throws when no non-empty verifier was saved. */
    function CodeVerifier(): (r: Result<string>)
      reads session
      ensures r.Ok? <==> Truthy(session.codeVerifier)
      ensures r.Ok? ==> r.value == session.codeVerifier.value
      ensures r.Err? ==> r.message == MissingVerifierError
    {
      if !Truthy(session.codeVerifier) then Err(MissingVerifierError) else Ok(session.codeVerifier.value)
    }

    /** Applies the SDK's calls in order. */
    method Replay(calls: seq<ProviderCall>)
      requires Valid() && StatesNonEmpty(calls)
      modifies store, session
      ensures Valid()
      ensures store.sessions == old(store.sessions)
      ensures (session.Snapshot(), store.sessionIdsByState)
        == AfterCalls(old(session.Snapshot()), old(store.sessionIdsByState), sessionId, calls)
    {
      var k := 0;
      while k < |calls|
        invariant 0 <= k <= |calls|
        invariant Valid()
        invariant store.sessions == old(store.sessions)
        invariant (session.Snapshot(), store.sessionIdsByState)
          == AfterCalls(old(session.Snapshot()), old(store.sessionIdsByState), sessionId, calls[..k])
      {
        assert calls[..k + 1][..k] == calls[..k];
        match calls[k] {
          case SaveClientInformation(information) => SaveClientInformation(information);
          case SaveTokens(saved) => SaveTokens(saved);
          case SaveCodeVerifier(verifier) => SaveCodeVerifier(verifier);
          case RedirectToAuthorization(url) => RedirectToAuthorization(url);
          case IssueState(issued) => var _ := IssueState(issued);
        }
        k := k + 1;
      }
      assert calls[..k] == calls;
    }
  }
}
