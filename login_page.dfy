/** The login page (astar_frontend/src/app/login-page-component/login-page-component.ts): the
    two login handlers and the mapping from provider errors to the message the page shows. */
module LoginPage {
  import opened Base
  import opened Session
  import opened Auth

  const InvalidCredentialMessage := "Incorrect email or password."
  const UserNotFoundMessage := "No account found for that email."
  const TooManyRequestsMessage := "Too many attempts. Please try again later."
  const PopupClosedMessage := "Google sign-in was cancelled."
  const PopupBlockedMessage := "Popup was blocked by the browser. Allow popups and try again."
  const FallbackMessage := "Login failed. Please try again."

  /** The URL both handlers navigate to once the service call has settled. */
  const HomeUrl := "/"
  /** The route the service itself opens after a Google sign-in. */
  const PortalUrl := "/portal"

  /** The error codes the page has a message of its own for. */
  predicate KnownCode(code: string)
  {
    code == "auth/invalid-credential" || code == "auth/wrong-password" || code == "auth/user-not-found"
    || code == "auth/too-many-requests" || code == "auth/popup-closed-by-user"
    || code == "auth/popup-blocked"
  }

  /** `prettyFirebaseError`: a fixed message per known code; otherwise the error's own message,
      or a generic one when it has none. */
  function PrettyFirebaseError(e: JsError): (msg: string)
    ensures e.code == Some("auth/invalid-credential") || e.code == Some("auth/wrong-password")
      ==> msg == InvalidCredentialMessage
    ensures e.code == Some("auth/user-not-found") ==> msg == UserNotFoundMessage
    ensures e.code == Some("auth/too-many-requests") ==> msg == TooManyRequestsMessage
    ensures e.code == Some("auth/popup-closed-by-user") ==> msg == PopupClosedMessage
    ensures e.code == Some("auth/popup-blocked") ==> msg == PopupBlockedMessage
    ensures (e.code.None? || !KnownCode(e.code.value)) && e.message.Some? ==> msg == e.message.value
    ensures (e.code.None? || !KnownCode(e.code.value)) && e.message.None? ==> msg == FallbackMessage
  {
    match e.code
    case Some("auth/invalid-credential") => InvalidCredentialMessage
    case Some("auth/wrong-password") => InvalidCredentialMessage
    case Some("auth/user-not-found") => UserNotFoundMessage
    case Some("auth/too-many-requests") => TooManyRequestsMessage
    case Some("auth/popup-closed-by-user") => PopupClosedMessage
    case Some("auth/popup-blocked") => PopupBlockedMessage
    case _ => if e.message.Some? then e.message.value else FallbackMessage
  }

  /** For a known code the error's own message never reaches the page. */
  lemma KnownCodeHidesMessage(code: string, m1: Option<string>, m2: Option<string>)
    requires KnownCode(code)
    ensures PrettyFirebaseError(JsError(Some(code), m1)) == PrettyFirebaseError(JsError(Some(code), m2))
    ensures PrettyFirebaseError(JsError(Some(code), m1)) != FallbackMessage
  {
  }

  /** The page shows nothing empty unless the error itself carried an empty message. */
  lemma PrettyFirebaseErrorNonEmpty(e: JsError)
    ensures PrettyFirebaseError(e) == "" ==> e.message == Some("") && (e.code.None? || !KnownCode(e.code.value))
  {
  }

  /** What the page shows: the `loading` and `errorMsg` signals, whether the form was marked
      touched, and the navigations requested of the router so far. */
  datatype Page = Page(loading: bool, errorMsg: Option<string>, touched: bool, navigations: seq<string>)

  /** `loginEmail` from the service state `st` and page `page`, given the form's validity, how
      the service's `loginWithEmail` steps settle, and how `navigateByUrl('/')` settles. */
  function LoginEmailStep(st: State, page: Page, formValid: bool, signIn: Result<User, JsError>,
                          fetch: TokenFetch, storedAt: string, nav: Outcome<JsError>)
    : (r: (State, Page))
  {
    if !formValid then (st, page.(touched := true))
    else
      var (next, login) := Session.LoginWithEmail(st, signIn, fetch, storedAt);
      match login
      case Err(e) => (next, page.(loading := false, errorMsg := Some(PrettyFirebaseError(e))))
      case Ok(_) =>
        var navigations := page.navigations + [HomeUrl];
        match nav
        case Fail(e) =>
          (next, page.(loading := false, errorMsg := Some(PrettyFirebaseError(e)), navigations := navigations))
        case Pass => (next, page.(loading := false, errorMsg := None, navigations := navigations))
  }

  /** `loginGoogle`: the service catches every sign-in failure, so only a rejected navigation can
      put a message on the page. */
  function LoginGoogleStep(st: State, page: Page, popup: Result<User, JsError>, fetch: TokenFetch,
                           storedAt: string, nav: Outcome<JsError>)
    : (r: (State, Page))
  {
    var (next, toPortal) := Session.LoginWithGoogle(st, popup, fetch, storedAt);
    var navigations := page.navigations + (if toPortal then [PortalUrl] else []) + [HomeUrl];
    match nav
    case Fail(e) =>
      (next, page.(loading := false, errorMsg := Some(PrettyFirebaseError(e)), navigations := navigations))
    case Pass => (next, page.(loading := false, errorMsg := None, navigations := navigations))
  }

  /** An invalid form only marks the fields touched: the service is not called, nothing else on
      the page changes. */
  lemma LoginEmailInvalidForm(st: State, page: Page, signIn: Result<User, JsError>, fetch: TokenFetch,
                              storedAt: string, nav: Outcome<JsError>)
    ensures var (next, after) := LoginEmailStep(st, page, false, signIn, fetch, storedAt, nav);
      next == st && after.touched && after.loading == page.loading && after.errorMsg == page.errorMsg
      && after.navigations == page.navigations
  {
  }

  /** A submitted email login always ends with `loading` off; it shows an error exactly when the
      service call or the navigation failed, and navigates home exactly when the service call
      succeeded. */
  lemma LoginEmailSettles(st: State, page: Page, signIn: Result<User, JsError>, fetch: TokenFetch,
                          storedAt: string, nav: Outcome<JsError>)
    ensures var (_, login) := Session.LoginWithEmail(st, signIn, fetch, storedAt);
      var (_, after) := LoginEmailStep(st, page, true, signIn, fetch, storedAt, nav);
      !after.loading && after.touched == page.touched
      && (after.errorMsg.Some? <==> login.Err? || nav.Fail?)
      && (login.Ok? <==> after.navigations == page.navigations + [HomeUrl])
      && (login.Err? ==> after.navigations == page.navigations
                         && after.errorMsg == Some(PrettyFirebaseError(login.error)))
  {
    var (_, login) := Session.LoginWithEmail(st, signIn, fetch, storedAt);
    var (_, after) := LoginEmailStep(st, page, true, signIn, fetch, storedAt, nav);
    if login.Err? {
      assert |after.navigations| == |page.navigations|;
    }
  }

  /** A provider rejection of the password shows the page's own wording and leaves the service
      state as it was. */
  lemma LoginEmailWrongPassword(st: State, page: Page, m: Option<string>, fetch: TokenFetch,
                                storedAt: string, nav: Outcome<JsError>)
    ensures var (next, after) := LoginEmailStep(st, page, true, Err(JsError(Some("auth/wrong-password"), m)),
                                                fetch, storedAt, nav);
      next == st && after.errorMsg == Some(InvalidCredentialMessage)
  {
    var (next, after) := LoginEmailStep(st, page, true, Err(JsError(Some("auth/wrong-password"), m)),
                                        fetch, storedAt, nav);
    assert PrettyFirebaseError(JsError(Some("auth/wrong-password"), m)) == InvalidCredentialMessage;
  }

  /** A user without provider entries signs in, yet the page shows the runtime's TypeError text:
      the token was already published to the signal and subject; neither storage slot was
      written. */
  lemma LoginEmailWithoutProviderData(st: State, page: Page, u: User, t: string, storedAt: string,
                                      nav: Outcome<JsError>)
    requires u.providerData == []
    ensures var (next, after) := LoginEmailStep(st, page, true, Ok(u), Fetched(t), storedAt, nav);
      next == State(Some(t), st.storage)
      && after.errorMsg == Some("Cannot read properties of undefined (reading 'providerId')")
      && after.navigations == page.navigations && !after.loading
  {
    var (next, stored) := StoreCredential(st, u, Fetched(t), storedAt);
    assert stored == Fail(ProviderDataTypeError) && next == State(Some(t), st.storage);
    assert PrettyFirebaseError(ProviderDataTypeError)
           == "Cannot read properties of undefined (reading 'providerId')";
  }

  /** Whatever the popup reports, including a cancelled or blocked popup, a Google login whose
      final navigation succeeds shows no message, so the popup messages above never appear. */
  lemma LoginGoogleHidesPopupErrors(st: State, page: Page, popup: Result<User, JsError>,
                                    fetch: TokenFetch, storedAt: string)
    ensures var (next, after) := LoginGoogleStep(st, page, popup, fetch, storedAt, Pass);
      after.errorMsg.None? && !after.loading
      && (popup.Err? ==> next == st && after.navigations == page.navigations + [HomeUrl])
  {
  }

  /** A Google login that stored the credential asks for the portal and then for the home URL;
      one that did not asks only for the home URL. */
  lemma LoginGoogleNavigations(st: State, page: Page, popup: Result<User, JsError>, fetch: TokenFetch,
                               storedAt: string, nav: Outcome<JsError>)
    ensures var (_, toPortal) := Session.LoginWithGoogle(st, popup, fetch, storedAt);
      var (_, after) := LoginGoogleStep(st, page, popup, fetch, storedAt, nav);
      after.navigations == page.navigations + (if toPortal then [PortalUrl, HomeUrl] else [HomeUrl])
      && (nav.Fail? <==> after.errorMsg.Some?)
      && (nav.Fail? ==> after.errorMsg == Some(PrettyFirebaseError(nav.error)))
      && !after.loading && after.touched == page.touched
  {
    var (_, toPortal) := Session.LoginWithGoogle(st, popup, fetch, storedAt);
    if toPortal {
      assert page.navigations + [PortalUrl] + [HomeUrl] == page.navigations + [PortalUrl, HomeUrl];
    } else {
      assert page.navigations + [] + [HomeUrl] == page.navigations + [HomeUrl];
    }
  }

  /** The component: its two signals, the form's touched flag, the navigations it (and the
      service, on the shared router) requested, and the injected `AuthService`. */
  class LoginPageComponent {
    var loading: bool
    var errorMsg: Option<string>
    var touched: bool
    var navigations: seq<string>
    const auth: AuthService

    ghost predicate Valid()
      reads this, auth
    {
      auth.Valid()
    }

    function View(): (page: Page)
      reads this
    {
      Page(loading, errorMsg, touched, navigations)
    }

    constructor (auth: AuthService)
      requires auth.Valid()
      ensures Valid() && this.auth == auth
      ensures View() == Page(false, None, false, [])
    {
      this.auth := auth;
      loading := false;
      errorMsg := None;
      touched := false;
      navigations := [];
    }

    /** `loginEmail`, given the form's validity, how `signInWithEmailAndPassword` and the token
        fetch settle, and how `navigateByUrl('/')` settles. */
    method LoginEmail(formValid: bool, signIn: Result<User, JsError>, fetch: TokenFetch,
                      storedAt: string, nav: Outcome<JsError>)
      requires Valid()
      modifies this, auth
      ensures Valid()
      ensures (auth.Current(), View())
              == LoginEmailStep(old(auth.Current()), old(View()), formValid, signIn, fetch, storedAt, nav)
      ensures !formValid ==> auth.emitted == old(auth.emitted) && auth.effects == old(auth.effects)
      ensures formValid ==> auth.emitted == old(auth.emitted) + SignInEmissions(signIn, fetch)
      ensures formValid ==> auth.effects == old(auth.effects) + SignInEffects(signIn, fetch, storedAt)
    {
      if !formValid {
        touched := true;
        return;
      }
      loading := true;
      errorMsg := None;
      var login := auth.LoginWithEmail(signIn, fetch, storedAt);
      if login.Err? {
        errorMsg := Some(PrettyFirebaseError(login.error));
      } else {
        navigations := navigations + [HomeUrl];
        if nav.Fail? {
          errorMsg := Some(PrettyFirebaseError(nav.error));
        }
      }
      loading := false;
    }

    /** `loginGoogle`, given how `signInWithPopup` and the token fetch settle, and how
        `navigateByUrl('/')` settles. */
    method LoginGoogle(popup: Result<User, JsError>, fetch: TokenFetch, storedAt: string,
                       nav: Outcome<JsError>)
      requires Valid()
      modifies this, auth
      ensures Valid()
      ensures (auth.Current(), View())
              == LoginGoogleStep(old(auth.Current()), old(View()), popup, fetch, storedAt, nav)
      ensures auth.emitted == old(auth.emitted) + SignInEmissions(popup, fetch)
      ensures auth.effects == old(auth.effects) + SignInEffects(popup, fetch, storedAt)
    {
      loading := true;
      errorMsg := None;
      var toPortal := auth.LoginWithGoogle(popup, fetch, storedAt);
      if toPortal {
        navigations := navigations + [PortalUrl];
      } else {
        assert navigations + [] == navigations;
      }
      navigations := navigations + [HomeUrl];
      if nav.Fail? {
        errorMsg := Some(PrettyFirebaseError(nav.error));
      }
      loading := false;
    }
  }
}
