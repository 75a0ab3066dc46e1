/** The session state that the frontend's AuthService keeps (auth-service.ts), as pure
    transitions: the current bearer token, which its `token` signal and `token$` subject both
    carry, and the browser's local storage. Each transition is one handler run to completion,
    given the results of the provider calls it awaits. */
module Session {
  import opened Base
  import opened SnapshotJson

  /** Local storage keys, versioned so that a new format can use new keys. */
  const AuthCredKey := "fb_user_cred_v1"
  const AuthTokenKey := "fb_id_token_v1"

  datatype ProviderInfo = ProviderInfo(providerId: string)

  /** The fields of a Firebase `User` the service reads. */
  datatype User = User(
    uid: string,
    email: Option<string>,
    displayName: Option<string>,
    photoURL: Option<string>,
    providerData: seq<ProviderInfo>)

  /** How a `user.getIdToken()` promise settled. */
  datatype TokenFetch = Fetched(idToken: string) | FetchFailed(error: JsError)

  /** One notification of the `authState` stream, with the outcome of the token fetch its
      handler awaits when a user is present. */
  datatype AuthEvent = NoUser | UserPresent(user: User, fetch: TokenFetch, storedAt: string)

  /** What the rest of the application can observe: the current token and local storage. */
  datatype State = State(token: Option<string>, storage: map<string, string>)

  /** The token in memory is the one in its storage slot. */
  predicate Consistent(st: State)
  {
    Get(st.storage, AuthTokenKey) == st.token
  }

  /** What the TypeError reads like to `prettyFirebaseError`: no code, and V8's message for
      reading a property of `undefined`. */
  const ProviderDataTypeError := JsError(None, Some("Cannot read properties of undefined (reading 'providerId')"))

  function SnapshotOf(u: User, providerId: Option<string>, storedAt: string): (s: Snapshot)
  {
    Snapshot(u.uid, u.email, u.displayName, u.photoURL, providerId, storedAt)
  }

  /** `user.providerData?.[0]?.providerId ?? null`, as the listener writes it. */
  function FirstProviderId(u: User): (r: Option<string>)
    ensures r.Some? <==> |u.providerData| > 0
    ensures r.Some? ==> r.value == u.providerData[0].providerId
  {
    if |u.providerData| > 0 then Some(u.providerData[0].providerId) else None
  }

  /** `loadTokenFromLocalStorage`: the token is whatever the token slot holds. */
  function Load(storage: map<string, string>): (st: State)
  {
    State(Get(storage, AuthTokenKey), storage)
  }

  /** The `authState` subscriber. "No user" clears the token and both slots. A user whose token
      fetch succeeds writes the token to memory, then the token slot, then the snapshot slot; a
      fetch that fails leaves everything as it was (the rejection goes unhandled). */
  function OnAuthState(st: State, event: AuthEvent): (next: State)
  {
    match event
    case NoUser => State(None, st.storage - {AuthTokenKey, AuthCredKey})
    case UserPresent(u, FetchFailed(_), _) => st
    case UserPresent(u, Fetched(t), storedAt) =>
      var snapshot := SnapshotOf(u, FirstProviderId(u), storedAt);
      State(Some(t), st.storage[AuthTokenKey := t][AuthCredKey := Stringify(snapshot)])
  }

  /** `storeCredentialToLocalStorage`. The token goes to memory first; `providerData?.[0]
      .providerId` then throws a TypeError when the user has no provider entries, before either
      slot is written; otherwise the snapshot slot and then the token slot are written. */
  function StoreCredential(st: State, u: User, fetch: TokenFetch, storedAt: string)
    : (r: (State, Outcome<JsError>))
  {
    match fetch
    case FetchFailed(e) => (st, Fail(e))
    case Fetched(t) =>
      if |u.providerData| == 0 then (State(Some(t), st.storage), Fail(ProviderDataTypeError))
      else
        var snapshot := SnapshotOf(u, Some(u.providerData[0].providerId), storedAt);
        (State(Some(t), st.storage[AuthCredKey := Stringify(snapshot)][AuthTokenKey := t]), Pass)
  }

  /** `getBearerToken`, given the provider's current user. */
  function GetBearerToken(st: State, currentUser: Option<User>, fetch: TokenFetch)
    : (r: (State, Result<Option<string>, JsError>))
  {
    if currentUser.None? then (st, Ok(None))
    else
      match fetch
      case FetchFailed(e) => (st, Err(e))
      case Fetched(t) => (State(Some(t), st.storage[AuthTokenKey := t]), Ok(Some(t)))
  }

  /** `loginWithEmail`, given how `signInWithEmailAndPassword` settled (the signed-in user, or
      the provider's error). The credential returned on success carries that user. */
  function LoginWithEmail(st: State, signIn: Result<User, JsError>, fetch: TokenFetch, storedAt: string)
    : (r: (State, Result<User, JsError>))
  {
    match signIn
    case Err(e) => (st, Err(e))
    case Ok(u) =>
      var (next, stored) := StoreCredential(st, u, fetch, storedAt);
      match stored
      case Fail(e) => (next, Err(e))
      case Pass => (next, Ok(u))
  }

  /** `loginWithGoogle`, given how `signInWithPopup` settled. Every failure is caught and logged;
      the result says whether navigation to the portal was started. */
  function LoginWithGoogle(st: State, popup: Result<User, JsError>, fetch: TokenFetch, storedAt: string)
    : (r: (State, bool))
  {
    match popup
    case Err(_) => (st, false)
    case Ok(u) =>
      var (next, stored) := StoreCredential(st, u, fetch, storedAt);
      (next, stored.Pass?)
  }

  /** `logout`, up to the `signOut` call: the token and both slots are cleared. */
  function Logout(st: State): (next: State)
  {
    State(None, st.storage - {AuthTokenKey, AuthCredKey})
  }

  /** A run of `authState` notifications, each handled to completion in order. */
  function Run(st: State, events: seq<AuthEvent>): (last: State)
  {
    if events == [] then st else OnAuthState(Run(st, events[..|events| - 1]), events[|events| - 1])
  }

  // ---------------------------------------------------------------------------
  // The token in memory and the token slot

  /** Startup reads the token from its slot, so memory and storage agree from the start. */
  lemma LoadConsistent(storage: map<string, string>)
    ensures Consistent(Load(storage))
    ensures Load(storage).token.Some? <==> AuthTokenKey in storage
  {
  }

  /** Every notification keeps memory and the token slot in step. */
  lemma OnAuthStateConsistent(st: State, event: AuthEvent)
    requires Consistent(st)
    ensures Consistent(OnAuthState(st, event))
  {
  }

  /** So does any run of notifications. */
  lemma {:induction false} RunConsistent(st: State, events: seq<AuthEvent>)
    requires Consistent(st)
    ensures Consistent(Run(st, events))
  {
    if events != [] {
      RunConsistent(st, events[..|events| - 1]);
      OnAuthStateConsistent(Run(st, events[..|events| - 1]), events[|events| - 1]);
    }
  }

  /** `getBearerToken` and `logout` keep memory and the token slot in step. */
  lemma BearerAndLogoutConsistent(st: State, currentUser: Option<User>, fetch: TokenFetch)
    requires Consistent(st)
    ensures Consistent(GetBearerToken(st, currentUser, fetch).0)
    ensures Consistent(Logout(st))
  {
  }

  /** `storeCredentialToLocalStorage` keeps them in step except when it throws on a user without
      provider entries: memory then holds the new token and the slot still holds the old one. */
  lemma StoreCredentialConsistency(st: State, u: User, fetch: TokenFetch, storedAt: string)
    requires Consistent(st)
    ensures var (next, stored) := StoreCredential(st, u, fetch, storedAt);
      Consistent(next) <==> (stored.Pass? || fetch.FetchFailed? || st.token == Some(fetch.idToken))
  {
  }

  /** A concrete case of the divergence: signed out, then a login whose user has no provider
      entries leaves a token in memory and none in storage. */
  lemma StoreCredentialDivergence()
    ensures var u := User("u1", None, None, None, []);
      var (next, stored) := StoreCredential(Load(map[]), u, Fetched("t1"), "2024-01-01T00:00:00.000Z");
      stored == Fail(ProviderDataTypeError) && next.token == Some("t1") && !Consistent(next)
  {
  }

  // ---------------------------------------------------------------------------
  // Runs of notifications

  /** After a run whose last notification was "no user", or a user whose token fetch
      succeeded, a token is held exactly when that notification had a user; with a user, the
      token slot holds that user's token and the snapshot slot reads back as that user's
      snapshot. Earlier notifications, rejected fetches among them, do not matter. */
  lemma {:induction false} RunSettles(st: State, events: seq<AuthEvent>)
    requires events != []
    requires events[|events| - 1].UserPresent? ==> events[|events| - 1].fetch.Fetched?
    ensures var last, final := events[|events| - 1], Run(st, events);
      (final.token.None? <==> last.NoUser?)
      && (last.NoUser? ==> AuthTokenKey !in final.storage && AuthCredKey !in final.storage)
      && (last.UserPresent? ==>
            Get(final.storage, AuthTokenKey) == Some(last.fetch.idToken)
            && AuthCredKey in final.storage
            && Parse(final.storage[AuthCredKey])
               == Some(SnapshotOf(last.user, FirstProviderId(last.user), last.storedAt)))
  {
    var last := events[|events| - 1];
    if last.UserPresent? {
      ParseStringify(SnapshotOf(last.user, FirstProviderId(last.user), last.storedAt));
    }
  }

  /** A notification whose token fetch is rejected leaves the state as it was: the listener
      throws before writing anything, so the previous token, or none, stays in place. */
  lemma RunRejectedFetch(st: State, events: seq<AuthEvent>, u: User, e: JsError, at: string)
    ensures Run(st, events + [UserPresent(u, FetchFailed(e), at)]) == Run(st, events)
  {
    assert (events + [UserPresent(u, FetchFailed(e), at)])[..|events|] == events;
  }

  /** So a user can be present while no token is held: signed out, then a notification with a
      user whose token fetch is rejected. */
  lemma SignedOutThenRejectedFetch(storage: map<string, string>, u: User, e: JsError, at: string)
    ensures var final := Run(Load(storage), [NoUser, UserPresent(u, FetchFailed(e), at)]);
      final.token.None? && AuthTokenKey !in final.storage && AuthCredKey !in final.storage
  {
    RunRejectedFetch(Load(storage), [NoUser], u, e, at);
    assert [NoUser][..0] == [];
  }

  /** The scenario of a user "u1" signing in and then out: the snapshot slot first reads back
      with uid "u1" and a capture time, then both slots and the token are gone. */
  lemma SignInThenOut(st: State, email: string, t: string, storedAt: string)
    ensures var u := User("u1", Some(email), None, None, []);
      var signedIn := Run(st, [UserPresent(u, Fetched(t), storedAt)]);
      var signedOut := Run(st, [UserPresent(u, Fetched(t), storedAt), NoUser]);
      AuthCredKey in signedIn.storage
      && Parse(signedIn.storage[AuthCredKey]).Some?
      && Parse(signedIn.storage[AuthCredKey]).value.uid == "u1"
      && Parse(signedIn.storage[AuthCredKey]).value.storedAt == storedAt
      && signedOut.token.None?
      && AuthTokenKey !in signedOut.storage && AuthCredKey !in signedOut.storage
  {
    var u := User("u1", Some(email), None, None, []);
    var e := UserPresent(u, Fetched(t), storedAt);
    assert [e, NoUser][..1] == [e];
    assert [e][..0] == [];
    RunSettles(st, [e]);
  }

  /** Handling the same user twice gives what the second notification alone gives: the later
      fetch's token and capture time win and nothing else is left behind. */
  lemma OnAuthStateRepeated(st: State, u: User, t1: string, at1: string, t2: string, at2: string)
    ensures OnAuthState(OnAuthState(st, UserPresent(u, Fetched(t1), at1)), UserPresent(u, Fetched(t2), at2))
      == OnAuthState(st, UserPresent(u, Fetched(t2), at2))
  {
    var s1 := OnAuthState(st, UserPresent(u, Fetched(t1), at1)).storage;
    var snap2 := Stringify(SnapshotOf(u, FirstProviderId(u), at2));
    assert s1[AuthTokenKey := t2][AuthCredKey := snap2]
      == st.storage[AuthTokenKey := t2][AuthCredKey := snap2];
  }

  // ---------------------------------------------------------------------------
  // The facade operations

  /** A successful login write-through leaves exactly the state the listener would write for the
      same user, token and time, although it writes the two slots in the other order. */
  lemma StoreCredentialMatchesListener(st: State, u: User, t: string, storedAt: string)
    requires |u.providerData| > 0
    ensures StoreCredential(st, u, Fetched(t), storedAt)
      == (OnAuthState(st, UserPresent(u, Fetched(t), storedAt)), Pass)
  {
    var snapshot := Stringify(SnapshotOf(u, FirstProviderId(u), storedAt));
    assert st.storage[AuthCredKey := snapshot][AuthTokenKey := t]
      == st.storage[AuthTokenKey := t][AuthCredKey := snapshot];
  }

  /** `getBearerToken` without a signed-in user returns null and changes nothing; with one, it
      returns the fresh token, which memory and the token slot then hold, and leaves the snapshot
      slot alone; a failed fetch is passed to the caller and changes nothing. */
  lemma GetBearerTokenEffect(st: State, currentUser: Option<User>, fetch: TokenFetch)
    ensures var (next, r) := GetBearerToken(st, currentUser, fetch);
      (currentUser.None? ==> next == st && r == Ok(None))
      && (currentUser.Some? && fetch.FetchFailed? ==> next == st && r == Err(fetch.error))
      && (currentUser.Some? && fetch.Fetched? ==>
            r == Ok(Some(fetch.idToken)) && next.token == Some(fetch.idToken)
            && Get(next.storage, AuthTokenKey) == Some(fetch.idToken)
            && Get(next.storage, AuthCredKey) == Get(st.storage, AuthCredKey))
  {
  }

  /** Two `getBearerToken` calls in a row both succeed, and the session holds the later token. */
  lemma GetBearerTokenTwice(st: State, u: User, t1: string, t2: string)
    ensures var (mid, r1) := GetBearerToken(st, Some(u), Fetched(t1));
      var (final, r2) := GetBearerToken(mid, Some(u), Fetched(t2));
      r1 == Ok(Some(t1)) && r2 == Ok(Some(t2)) && final.token == Some(t2)
      && Get(final.storage, AuthTokenKey) == Some(t2)
  {
  }

  /** A rejected sign-in changes nothing and reaches the caller unchanged; so does a rejected
      token fetch, with its own error. The call succeeds only for an accepted user with provider
      entries whose token fetch succeeded, and then the token is in memory and storage and the
      snapshot is stored before the credential is returned. */
  lemma LoginWithEmailEffect(st: State, signIn: Result<User, JsError>, fetch: TokenFetch, storedAt: string)
    ensures var (next, r) := LoginWithEmail(st, signIn, fetch, storedAt);
      (signIn.Err? ==> next == st && r == Err(signIn.error))
      && (signIn.Ok? && fetch.FetchFailed? ==> next == st && r == Err(fetch.error))
      && (r.Ok? ==>
            signIn.Ok? && fetch.Fetched? && |signIn.value.providerData| > 0
            && next.token == Some(fetch.idToken) && Consistent(next))
      && (signIn.Ok? && fetch.Fetched? && |signIn.value.providerData| > 0 ==>
            r == Ok(signIn.value) && next.token == Some(fetch.idToken) && Consistent(next)
            && AuthCredKey in next.storage
            && Parse(next.storage[AuthCredKey])
               == Some(SnapshotOf(signIn.value, FirstProviderId(signIn.value), storedAt)))
  {
    if signIn.Ok? && fetch.Fetched? && |signIn.value.providerData| > 0 {
      StoreCredentialMatchesListener(st, signIn.value, fetch.idToken, storedAt);
      ParseStringify(SnapshotOf(signIn.value, FirstProviderId(signIn.value), storedAt));
    }
  }

  /** `loginWithGoogle` never fails: a rejected popup or token fetch changes nothing and starts
      no navigation; a user without provider entries leaves the token in memory only. */
  lemma LoginWithGoogleEffect(st: State, popup: Result<User, JsError>, fetch: TokenFetch, storedAt: string)
    ensures var (next, navigate) := LoginWithGoogle(st, popup, fetch, storedAt);
      (popup.Err? ==> next == st && !navigate)
      && (navigate <==> popup.Ok? && fetch.Fetched? && |popup.value.providerData| > 0)
      && (navigate ==> next == OnAuthState(st, UserPresent(popup.value, fetch, storedAt)))
      && (popup.Ok? && fetch.FetchFailed? ==> next == st)
      && (popup.Ok? && fetch.Fetched? && !navigate ==> next == State(Some(fetch.idToken), st.storage))
  {
    if popup.Ok? && fetch.Fetched? && |popup.value.providerData| > 0 {
      StoreCredentialMatchesListener(st, popup.value, fetch.idToken, storedAt);
    }
  }

  /** After `logout` the session is signed out whatever it was before, and a later "no user"
      notification changes nothing. */
  lemma LogoutSignsOut(st: State)
    ensures Logout(st).token.None?
    ensures AuthTokenKey !in Logout(st).storage && AuthCredKey !in Logout(st).storage
    ensures forall k | k in st.storage && k != AuthTokenKey && k != AuthCredKey ::
      k in Logout(st).storage && Logout(st).storage[k] == st.storage[k]
    ensures OnAuthState(Logout(st), NoUser) == Logout(st)
  {
    var s := Logout(st).storage;
    assert s - {AuthTokenKey, AuthCredKey} == s;
  }
}
