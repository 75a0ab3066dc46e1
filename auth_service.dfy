/** The frontend's `AuthService` (astar_frontend/src/api_services/auth-service.ts) as an object
    whose handlers update its state statement by statement: the `token` signal, the values
    pushed through the `token$` subject, and local storage, with a log of the calls it makes on
    storage and on the provider, in order. */
module Auth {
  import opened Base
  import opened SnapshotJson
  import opened Session

  /** A call the service makes on local storage or on the identity provider. */
  datatype Effect = Write(key: string, value: string) | Remove(key: string) | SignOut

  /** The storage that a sequence of calls leaves behind. */
  function Replay(storage: map<string, string>, effects: seq<Effect>): (after: map<string, string>)
  {
    if effects == [] then storage
    else
      Apply(Replay(storage, effects[..|effects| - 1]), effects[|effects| - 1])
  }

  /** The storage one call leaves behind. */
  function Apply(storage: map<string, string>, e: Effect): (after: map<string, string>)
  {
    match e
    case Write(key, value) => storage[key := value]
    case Remove(key) => storage - {key}
    case SignOut => storage
  }

  /** What a settled sign-in pushes through `token$`: the fetched token, once the provider has
      accepted the user and the token fetch has succeeded; nothing otherwise. */
  function SignInEmissions(signIn: Result<User, JsError>, fetch: TokenFetch): (pushed: seq<Option<string>>)
  {
    if signIn.Ok? && fetch.Fetched? then [Some(fetch.idToken)] else []
  }

  /** The storage calls a settled sign-in makes: the snapshot, then the token, once the user has
      a provider entry and the token fetch has succeeded; none otherwise. */
  function SignInEffects(signIn: Result<User, JsError>, fetch: TokenFetch, storedAt: string): (calls: seq<Effect>)
  {
    if signIn.Ok? && fetch.Fetched? && |signIn.value.providerData| > 0 then
      [Write(AuthCredKey, Stringify(SnapshotOf(signIn.value, FirstProviderId(signIn.value), storedAt))),
       Write(AuthTokenKey, fetch.idToken)]
    else []
  }

  lemma ReplayAppend(storage: map<string, string>, effects: seq<Effect>, e: Effect)
    ensures Replay(storage, effects + [e]) == Apply(Replay(storage, effects), e)
  {
    assert (effects + [e])[..|effects|] == effects;
  }

  class AuthService {
    /** The `token` signal. */
    var token: Option<string>
    /** Every value `token$` has carried, oldest first; its current value is the last. */
    var emitted: seq<Option<string>>
    /** `localStorage`. */
    var storage: map<string, string>
    /** The storage and provider calls made so far, in order. */
    var effects: seq<Effect>
    /** Local storage as the service found it. */
    ghost var initialStorage: map<string, string>

    /** The current value of `token$`. */
    function SubjectValue(): (v: Option<string>)
      reads this
      requires |emitted| > 0
    {
      emitted[|emitted| - 1]
    }

    /** The signal and the subject agree, and storage is what the logged calls left. */
    ghost predicate Valid()
      reads this
    {
      |emitted| > 0 && token == SubjectValue()
      && storage == Replay(initialStorage, effects)
    }

    /** The state the rest of the application observes. */
    function Current(): (st: State)
      reads this
    {
      State(token, storage)
    }

    /** The constructor: the signal and subject start at null, then the stored token is loaded.
        The subscription to `authState` is `OnAuthStateChanged`, called once per notification. */
    constructor (storage: map<string, string>)
      ensures Valid()
      ensures Current() == Load(storage)
      ensures emitted == [None, Get(storage, AuthTokenKey)] && effects == []
    {
      this.token := None;
      this.emitted := [None];
      this.storage := storage;
      this.effects := [];
      this.initialStorage := storage;
      new;
      LoadTokenFromLocalStorage();
    }

    /** Writes the signal and pushes the same value through the subject. */
    method Publish(value: Option<string>)
      requires Valid()
      modifies this`token, this`emitted
      ensures Valid()
      ensures token == value && emitted == old(emitted) + [value]
    {
      token := value;
      emitted := emitted + [value];
    }

    method SetItem(key: string, value: string)
      requires Valid()
      modifies this`storage, this`effects
      ensures Valid()
      ensures storage == old(storage)[key := value] && effects == old(effects) + [Write(key, value)]
    {
      ReplayAppend(initialStorage, effects, Write(key, value));
      storage := storage[key := value];
      effects := effects + [Write(key, value)];
    }

    method RemoveItem(key: string)
      requires Valid()
      modifies this`storage, this`effects
      ensures Valid()
      ensures storage == old(storage) - {key} && effects == old(effects) + [Remove(key)]
    {
      ReplayAppend(initialStorage, effects, Remove(key));
      storage := storage - {key};
      effects := effects + [Remove(key)];
    }

    /** `loadTokenFromLocalStorage`. */
    method LoadTokenFromLocalStorage()
      requires Valid()
      modifies this`token, this`emitted
      ensures Valid()
      ensures Current() == Load(old(storage))
      ensures emitted == old(emitted) + [Get(storage, AuthTokenKey)]
    {
      var stored := Get(storage, AuthTokenKey);
      Publish(stored);
    }

    /** The `authState` subscriber, for one notification. */
    method OnAuthStateChanged(event: AuthEvent)
      requires Valid()
      modifies this
      ensures Valid()
      ensures Current() == OnAuthState(old(Current()), event)
      ensures match event
        case NoUser =>
          emitted == old(emitted) + [None]
          && effects == old(effects) + [Remove(AuthTokenKey), Remove(AuthCredKey)]
        case UserPresent(_, FetchFailed(_), _) =>
          emitted == old(emitted) && effects == old(effects)
        case UserPresent(u, Fetched(t), storedAt) =>
          emitted == old(emitted) + [Some(t)]
          && effects == old(effects) + [Write(AuthTokenKey, t),
               Write(AuthCredKey, Stringify(SnapshotOf(u, FirstProviderId(u), storedAt)))]
    {
      match event {
        case NoUser =>
          Publish(None);
          RemoveItem(AuthTokenKey);
          RemoveItem(AuthCredKey);
        case UserPresent(u, fetch, storedAt) =>
          if fetch.FetchFailed? {
            return;
          }
          var idToken := fetch.idToken;
          Publish(Some(idToken));
          SetItem(AuthTokenKey, idToken);
          var snapshot := SnapshotOf(u, FirstProviderId(u), storedAt);
          SetItem(AuthCredKey, Stringify(snapshot));
      }
    }

    /** `storeCredentialToLocalStorage`, given the credential's user. */
    method StoreCredentialToLocalStorage(u: User, fetch: TokenFetch, storedAt: string)
      returns (stored: Outcome<JsError>)
      requires Valid()
      modifies this
      ensures Valid()
      ensures (Current(), stored) == StoreCredential(old(Current()), u, fetch, storedAt)
      ensures fetch.FetchFailed? ==> emitted == old(emitted) && effects == old(effects)
      ensures fetch.Fetched? ==> emitted == old(emitted) + [Some(fetch.idToken)]
      ensures fetch.Fetched? && |u.providerData| == 0 ==> effects == old(effects)
      ensures fetch.Fetched? && |u.providerData| > 0 ==>
        effects == old(effects) + [Write(AuthCredKey, Stringify(SnapshotOf(u, FirstProviderId(u), storedAt))),
                                   Write(AuthTokenKey, fetch.idToken)]
    {
      if fetch.FetchFailed? {
        return Fail(fetch.error);
      }
      var idToken := fetch.idToken;
      Publish(Some(idToken));
      if |u.providerData| == 0 {
        return Fail(ProviderDataTypeError);
      }
      var snapshot := SnapshotOf(u, Some(u.providerData[0].providerId), storedAt);
      SetItem(AuthCredKey, Stringify(snapshot));
      SetItem(AuthTokenKey, idToken);
      return Pass;
    }

    /** `getBearerToken`, given the provider's current user. */
    method GetBearerToken(currentUser: Option<User>, fetch: TokenFetch)
      returns (r: Result<Option<string>, JsError>)
      requires Valid()
      modifies this
      ensures Valid()
      ensures (Current(), r) == Session.GetBearerToken(old(Current()), currentUser, fetch)
      ensures currentUser.Some? && fetch.Fetched? ==>
        emitted == old(emitted) + [Some(fetch.idToken)]
        && effects == old(effects) + [Write(AuthTokenKey, fetch.idToken)]
      ensures currentUser.None? || fetch.FetchFailed? ==> emitted == old(emitted) && effects == old(effects)
    {
      if currentUser.None? {
        return Ok(None);
      }
      if fetch.FetchFailed? {
        return Err(fetch.error);
      }
      var freshToken := fetch.idToken;
      Publish(Some(freshToken));
      SetItem(AuthTokenKey, freshToken);
      return Ok(Some(freshToken));
    }

    /** `loginWithEmail`, given how `signInWithEmailAndPassword` settled. */
    method LoginWithEmail(signIn: Result<User, JsError>, fetch: TokenFetch, storedAt: string)
      returns (r: Result<User, JsError>)
      requires Valid()
      modifies this
      ensures Valid()
      ensures (Current(), r) == Session.LoginWithEmail(old(Current()), signIn, fetch, storedAt)
      ensures emitted == old(emitted) + SignInEmissions(signIn, fetch)
      ensures effects == old(effects) + SignInEffects(signIn, fetch, storedAt)
    {
      if signIn.Err? {
        return Err(signIn.error);
      }
      var stored := StoreCredentialToLocalStorage(signIn.value, fetch, storedAt);
      if stored.Fail? {
        return Err(stored.error);
      }
      return Ok(signIn.value);
    }

    /** `loginWithGoogle`, given how `signInWithPopup` settled; every error is caught. The result
        says whether navigation to the portal was started. */
    method LoginWithGoogle(popup: Result<User, JsError>, fetch: TokenFetch, storedAt: string)
      returns (navigate: bool)
      requires Valid()
      modifies this
      ensures Valid()
      ensures (Current(), navigate) == Session.LoginWithGoogle(old(Current()), popup, fetch, storedAt)
      ensures emitted == old(emitted) + SignInEmissions(popup, fetch)
      ensures effects == old(effects) + SignInEffects(popup, fetch, storedAt)
    {
      if popup.Err? {
        return false;
      }
      var stored := StoreCredentialToLocalStorage(popup.value, fetch, storedAt);
      navigate := stored.Pass?;
    }

    /** `logout`: the token and both slots are cleared before the provider is asked to sign out. */
    method Logout()
      requires Valid()
      modifies this
      ensures Valid()
      ensures Current() == Session.Logout(old(Current()))
      ensures emitted == old(emitted) + [None]
      ensures effects == old(effects) + [Remove(AuthTokenKey), Remove(AuthCredKey), SignOut]
    {
      Publish(None);
      RemoveItem(AuthTokenKey);
      RemoveItem(AuthCredKey);
      ReplayAppend(initialStorage, effects, SignOut);
      effects := effects + [SignOut];
    }
  }
}
