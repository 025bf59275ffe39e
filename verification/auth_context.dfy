/** The session store (context/AuthContext.tsx): the token and user held in
    state, and the single `token` cell of the browser's durable storage. */
module AuthContext {
  import opened Base
  import opened Types
  import opened Api

  datatype AuthState = AuthState(user: Option<User>, token: Option<string>, storage: Option<string>)

  /** The body of a successful `POST /auth/login`; nothing guarantees that it
      carries a token. */
  datatype LoginResponse = LoginResponse(token: Option<string>, user: User)

  /** The provider mounts with the stored token and no user. */
  function Start(stored: Option<string>): (s: AuthState)
    ensures s.token == stored && s.storage == stored && s.user.None?
    ensures StringTruthy(stored) ==> IsAuthenticated(s) && s.user.None?
  {
    AuthState(None, stored, stored)
  }

  /** `isAuthenticated: !!token` */
  predicate IsAuthenticated(s: AuthState) {
    StringTruthy(s.token)
  }

  /** What `localStorage.setItem` keeps: storage holds strings, so a missing
      token is stored as the text "undefined". */
  const UndefinedText := "undefined"

  function StoredText(token: Option<string>): (t: string)
    ensures token.Some? ==> t == token.value
    ensures token.None? ==> t == UndefinedText
  {
    match token
    case Some(v) => v
    case None => UndefinedText
  }

  /** `login`: on success the response's token goes to storage (as text) and to
      state, and the user is taken from the response; a rejected request changes
      nothing. */
  function Login(s: AuthState, call: Settled<LoginResponse>): (r: AuthState)
    ensures call.Resolved? ==> r.token == call.value.token && r.user == Some(call.value.user)
    ensures call.Resolved? && call.value.token.Some? ==> r.storage == call.value.token
    ensures call.Resolved? && call.value.token.None? ==> r.storage == Some(UndefinedText)
    ensures call.Resolved? ==> (IsAuthenticated(r) <==> StringTruthy(call.value.token))
    ensures call.Rejected? ==> r == s
  {
    match call
    case Resolved(resp) => AuthState(Some(resp.user), resp.token, Some(StoredText(resp.token)))
    case Rejected(_) => s
  }

  /** `register` only posts; the session is untouched whatever the outcome. */
  function Register(s: AuthState, call: Settled<()>): (r: AuthState)
    ensures r.token == s.token && r.user == s.user && r.storage == s.storage
  {
    s
  }

  /** `logout` removes the stored token and clears token and user. */
  function Logout(s: AuthState): (r: AuthState)
    ensures r.storage.None? && r.token.None? && r.user.None?
    ensures !IsAuthenticated(r)
  {
    AuthState(None, None, None)
  }

  datatype AuthEvent =
    | LoginEvent(call: Settled<LoginResponse>)
    | RegisterEvent(outcome: Settled<()>)
    | LogoutEvent

  function Apply(s: AuthState, e: AuthEvent): AuthState {
    match e
    case LoginEvent(call) => Login(s, call)
    case RegisterEvent(outcome) => Register(s, outcome)
    case LogoutEvent => Logout(s)
  }

  /** The session after a run of events from mount. */
  function Run(s: AuthState, events: seq<AuthEvent>): AuthState
    decreases |events|
  {
    if |events| == 0 then s else Run(Apply(s, events[0]), events[1..])
  }

  /** The token in state and the token in storage agree. */
  predicate Synced(s: AuthState) {
    s.token == s.storage
  }

  /** A token held in state is the one in storage. */
  predicate TokenStored(s: AuthState) {
    s.token.Some? ==> s.storage == s.token
  }

  /** Every successful login of the run answered with a token. */
  predicate LoginsCarryToken(events: seq<AuthEvent>) {
    forall k :: 0 <= k < |events| && events[k].LoginEvent? && events[k].call.Resolved? ==>
      events[k].call.value.token.Some?
  }

  /** Whatever the responses, a token held in state is always the stored one. */
  lemma {:induction false} RunKeepsTokenStored(s: AuthState, events: seq<AuthEvent>)
    requires TokenStored(s)
    ensures TokenStored(Run(s, events))
    decreases |events|
  {
    if |events| > 0 {
      var next := Apply(s, events[0]);
      assert TokenStored(next) by {
        match events[0]
        case LoginEvent(call) =>
        case RegisterEvent(outcome) =>
        case LogoutEvent =>
      }
      RunKeepsTokenStored(next, events[1..]);
    }
  }

  /** When every successful login answers with a token, state and storage agree
      over the whole run. */
  lemma {:induction false} RunKeepsSynced(s: AuthState, events: seq<AuthEvent>)
    requires Synced(s) && LoginsCarryToken(events)
    ensures Synced(Run(s, events))
    decreases |events|
  {
    if |events| > 0 {
      var next := Apply(s, events[0]);
      assert Synced(next) by {
        match events[0]
        case LoginEvent(call) =>
          if call.Resolved? {
            assert events[0].call.value.token.Some?;
          }
        case RegisterEvent(outcome) =>
        case LogoutEvent =>
      }
      assert LoginsCarryToken(events[1..]) by {
        forall k | 0 <= k < |events[1..]| && events[1..][k].LoginEvent? && events[1..][k].call.Resolved?
          ensures events[1..][k].call.value.token.Some?
        {
          assert events[1..][k] == events[k + 1];
        }
      }
      RunKeepsSynced(next, events[1..]);
    }
  }

  /** Whatever happened since mount, a signed-in session makes the request
      interceptor send a bearer header carrying the session's token. */
  lemma AuthenticatedSendsBearer(stored: Option<string>, events: seq<AuthEvent>)
    ensures var s := Run(Start(stored), events);
            var h := AttachBearer(DefaultHeaders, s.storage);
            IsAuthenticated(s) ==> AuthorizationHeader in h && h[AuthorizationHeader] == "Bearer " + s.token.value
  {
    RunKeepsTokenStored(Start(stored), events);
  }

  /** When every successful login answers with a token, the app counts as signed
      in exactly when the request interceptor sends a bearer header, and that
      header carries the session's token. */
  lemma AuthenticatedIffBearerSent(stored: Option<string>, events: seq<AuthEvent>)
    requires LoginsCarryToken(events)
    ensures var s := Run(Start(stored), events);
            var h := AttachBearer(DefaultHeaders, s.storage);
            && (IsAuthenticated(s) <==> AuthorizationHeader in h)
            && (IsAuthenticated(s) ==> h[AuthorizationHeader] == "Bearer " + s.token.value)
  {
    RunKeepsSynced(Start(stored), events);
    assert AuthorizationHeader !in DefaultHeaders;
  }

  /** A login answer without a token leaves the app signed out while every
      later request carries the header `Bearer undefined`. */
  lemma TokenlessLoginSendsUndefined(s: AuthState, user: User)
    ensures var r := Login(s, Resolved(LoginResponse(None, user)));
            var h := AttachBearer(DefaultHeaders, r.storage);
            && !IsAuthenticated(r) && !Synced(r)
            && AuthorizationHeader in h && h[AuthorizationHeader] == "Bearer " + UndefinedText
  {
  }
}
