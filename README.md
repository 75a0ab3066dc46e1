# Authentication core of astar_reviewer, in Dafny

This project models how astar_reviewer authenticates a request and keeps a signed-in session.

- **Backend (Go).** It covers the bearer-token parser of `Authorization` headers and its
  second copy in the `fbase` package. It covers the configuration helpers (`getenv`,
  `loadConfig`, `splitAndTrim`). It covers the decisions of the two Gin middlewares: the JWT
  `authMiddleware` and the Firebase `FirebaseAuthMiddleware`.
- **Frontend (TypeScript/Angular).** It covers `AuthService`, which keeps the current Firebase
  ID token in a signal, a `BehaviorSubject` and `localStorage`. It covers the login page's two
  handlers and its error-message mapping.

Files:

- `base.dfy`: `Option`, `Result`, `Outcome`, the inspected shape of a thrown JavaScript error,
  and map lookup.
- `go_strings.dfy`: the parts of Go's `strings` package the core uses: `TrimSpace` with the
  `unicode.IsSpace` set, `EqualFold`, `SplitN(s, " ", 2)`, `Split` and its inverse `Join`.
- `gin.dfy`: the parts of `*gin.Context` the middlewares touch, as a class.
- `backend.dfy`: `main.go`, that is `extractBearer`, `getenv`, `loadConfig`, `splitAndTrim`
  (a method with its loop) and `authMiddleware`.
- `fbase.dfy`: `fbase/auth.go`, that is the second `extractBearer`, proved equal to the first,
  and `FirebaseAuthMiddleware`.
- `snapshot_json.dfy`: the user snapshot stored in local storage. This covers its
  `JSON.stringify` text and a reader for that text, with a proved round trip.
- `session.dfy`: every `AuthService` handler as a pure transition on the observable state.
  That state is the token in memory plus local storage. Each handler runs to completion, given
  how the provider calls it awaits settle.
- `auth_service.dfy`: `AuthService` as a class whose methods update the token, the list of
  values `token$` emitted, and storage, statement by statement. Each method also keeps an
  ordered log of storage and provider calls. Each method is proved against its `Session`
  transition.
- `login_page.dfy`: `prettyFirebaseError` and the login page component, as page transitions
  and as a class driving an `AuthService`.

Provider calls, the clock and the browser come in as parameters:

- `signInWithEmailAndPassword`, `signInWithPopup` and `getIdToken` are represented by how their
  promises settled;
- `new Date().toISOString()` is a `storedAt` string;
- `navigateByUrl` is an `Outcome`;
- `authState` is a sequence of events;
- the environment is a `map`;
- JWT parsing and `VerifyIDToken` are oracle objects holding the tokens they accept.

Four behaviours of the code are easy to miss:

- **Two ways to read the provider id.** The `authState` listener reads the provider id with
  `providerData?.[0]?.providerId`, which gives null for a user without provider entries. The
  login write-through reads it with `providerData?.[0].providerId`, which throws a TypeError
  for such a user. By then the token is already in memory but not yet in storage.
  `Session.StoreCredentialConsistency`, `Session.StoreCredentialDivergence` and
  `LoginPage.LoginEmailWithoutProviderData` state the consequences.
- **Two write orders.** The listener writes the token slot before the snapshot slot. The
  write-through writes them in the opposite order. The resulting states are equal
  (`Session.StoreCredentialMatchesListener`), and the effect logs of `Auth.AuthService` record
  the two orders.
- **Google login errors.** `loginWithGoogle` catches every error. So the popup-specific
  messages of `prettyFirebaseError` never reach the page from a Google login
  (`LoginPage.LoginGoogleHidesPopupErrors`).
- **Panics in the Firebase middleware.** `FirebaseAuthMiddleware` uses the unchecked
  `.(string)` assertion on `email` and `name`, which panics when either claim is missing or is
  not a string. The model returns a `panicked` flag and the keys stored up to the panic.

## Model

| member | source | states |
|---|---|---|
| GoStrings.IsSpace | astar_backend/main.go:183 | definition: the characters Go's `unicode.IsSpace` accepts, which `TrimSpace` strips |
| GoStrings.TrimSpace | astar_backend/main.go:183 | the result has no leading or trailing white space, and it is empty exactly when the input is all white space |
| GoStrings.TrimSpaceIsSlice | astar_backend/main.go:183 | the trimmed string is a contiguous slice of the input |
| GoStrings.TrimSpaceOfTrimmed | astar_backend/main.go:200 | a string without surrounding white space is returned unchanged |
| GoStrings.TrimSpaceIdempotent | astar_backend/main.go:200 | trimming twice gives what trimming once gives |
| GoStrings.TrimSpacePadded | astar_backend/main.go:183 | white space around a trimmed core is removed, leaving that core exactly |
| GoStrings.EqualFold | astar_backend/main.go:180 | definition: equal length and equal letter by letter after ASCII case folding; characterised by `GoStrings.EqualFoldIffSameLower` |
| GoStrings.EqualFoldIffSameLower | astar_backend/main.go:180 | the case-insensitive comparison holds exactly when both strings lower-case to the same string |
| GoStrings.SplitN2 | astar_backend/main.go:176 | one part (the whole string) when the separator is absent, else two parts split at its first occurrence that rejoin to the input |
| GoStrings.Split | astar_backend/main.go:197 | one more part than there are separators, and no part contains the separator |
| GoStrings.JoinSplit | astar_backend/main.go:197 | rejoining the parts with the separator gives back the input |
| GoStrings.SplitJoin | astar_backend/main.go:197 | splitting a join of separator-free parts gives back those parts |
| GoStrings.SplitNoSeparator | astar_backend/main.go:197 | a string without the separator splits into itself alone |
| GoStrings.SplitAtFirst | astar_backend/main.go:197 | splitting at a first separator gives the prefix followed by the split of the rest |
| Gin.Context.GetHeader | astar_backend/main.go:150 | the header's value, or "" when the request has no such header |
| Gin.Context.Set | astar_backend/main.go:164-165 | the key is bound to the value and the other keys are unchanged |
| Gin.Context.AbortWithStatusJSON | astar_backend/main.go:153 | the response status and error body are set and the chain is aborted |
| Gin.Context.Next | astar_backend/main.go:167 | the next handler is called and is handed the keys stored so far |
| Backend.ExtractBearer | astar_backend/main.go:171-184 | a nonempty token means the header is longer than 7, starts with "bearer" in any case followed by a space, and the token is the trimmed rest; the token never has surrounding white space |
| Backend.ExtractBearerOfScheme | astar_backend/main.go:176-183 | any case-spelling of "bearer", a space and a rest give exactly the trimmed rest |
| Backend.ExtractFormatted | astar_backend/main.go:171-184 | a header built as "Bearer " + token gives back any token without surrounding white space |
| Backend.ExtractBearerRejects | astar_backend/main.go:173-182 | a header that is empty, has no space, or whose first word is not "bearer" gives "" |
| Backend.ExtractBearerAnyCase | astar_backend/main.go:180 | "Bearer", "bearer" and "BEARER" are all accepted |
| Backend.ExtractBearerOtherScheme | astar_backend/main.go:180-182 | another scheme, or no space after "Bearer", gives "" |
| Backend.ExtractBearerBlank | astar_backend/main.go:183 | "Bearer " with nothing after it gives "", which the middlewares treat as a missing token |
| Backend.ExtractBearerPadded | astar_backend/main.go:183 | white space between "Bearer " and a nonempty token, and after it, is dropped, leaving exactly the token |
| Backend.ExtractBearerTrims | astar_backend/main.go:183 | extra spaces around the token are dropped |
| Backend.Getenv | astar_backend/main.go:188-194 | an unset or empty variable gives the fallback, and a set nonempty one gives its value |
| Backend.LoadConfig | astar_backend/main.go:28-41 | the address is `BACKEND_PORT` and the secret `JWT_SECRET`, each falling back to its default, so neither is ever empty; every allowed origin is nonblank and trimmed, and the origins are the split-and-trimmed CORS variable |
| Backend.LoadConfigDefaults | astar_backend/main.go:30-34 | with no variables set, the configuration is ":8080", "dev-secret-change-me" and the single origin "http://localhost:4200" |
| Backend.DefaultOriginsIsOneItem | astar_backend/main.go:33 | the default origin list holds no comma and no surrounding space |
| Backend.TrimmedNonBlank | astar_backend/main.go:199-204 | no more items than the input, each nonblank and trimmed |
| Backend.TrimmedNonBlankAppend | astar_backend/main.go:199-204 | filtering keeps the input order: filtering a concatenation concatenates the filtered halves |
| Backend.TrimmedNonBlankMembers | astar_backend/main.go:196-206 | a string is kept exactly when it is the nonblank trimmed form of some input item |
| Backend.SplitAndTrim | astar_backend/main.go:196-206 | the loop's output is the comma split filtered to trimmed nonblank items, in order, at most one per separator plus one |
| Backend.JwtValidator.ParseAndValidate | astar_backend/main.go:131-145 | accepts exactly the tokens the oracle holds, returning their claims, and records the call |
| Backend.AuthMiddleware | astar_backend/main.go:148-169 | no token: 401 "missing bearer token" without consulting the validator; rejected token: 401 "invalid or expired token"; otherwise user_id and role are stored and only then does the chain continue, so the handler is handed both keys, with nothing aborted; the refusals never reach the handler |
| Fbase.ExtractBearer | astar_backend/fbase/auth.go:25-38 | definition: the package's own copy of the parser, branch for branch; its properties come from `Fbase.ExtractBearerAgrees` |
| Fbase.ExtractBearerAgrees | astar_backend/fbase/auth.go:25-38 | the package's copy of the parser equals the main package's on every header |
| Fbase.StringClaimOf | astar_backend/fbase/auth.go:62 | the comma-ok assertion gives a value exactly when the claim is present and a string |
| Fbase.IdTokenVerifier.VerifyIDToken | astar_backend/fbase/auth.go:49 | accepts exactly the ID tokens the oracle holds, returning what they decode to, and records the call |
| Fbase.FirebaseAuthMiddleware | astar_backend/fbase/auth.go:40-68 | no token: 401 "missing bearer token" without asking Firebase; rejected token: 401 "invalid or expired fbase token"; otherwise user_id, then user_email and user_name, are stored, panicking exactly when either claim is missing or not a string; role is stored only when it is a string; the chain continues exactly when there was no panic, and then the handler is handed every key stored |
| SnapshotJson.Stringify | astar_frontend/src/api_services/auth-service.ts:46-54 | definition: `JSON.stringify` of the snapshot object, its six members in source order, strings escaped and absent values as `null`; inverted by `SnapshotJson.ParseStringify` |
| SnapshotJson.ReadEscaped | astar_frontend/src/api_services/auth-service.ts:54 | reading an escaped string up to its closing quote gives back the string and the rest |
| SnapshotJson.ParseStringify | astar_frontend/src/api_services/auth-service.ts:54 | the stored snapshot text reads back as the snapshot that was stored |
| SnapshotJson.StringifyInjective | astar_frontend/src/api_services/auth-service.ts:73 | two snapshots with the same text are the same snapshot |
| Session.Load | astar_frontend/src/api_services/auth-service.ts:77-81 | definition: the token is the token slot's value, storage unchanged; properties in `Session.LoadConsistent` |
| Session.OnAuthState | astar_frontend/src/api_services/auth-service.ts:33-55 | definition: no user clears token and both slots; a rejected fetch changes nothing; otherwise token, token slot and snapshot slot are written; properties in `Session.OnAuthStateConsistent`, `Session.RunSettles`, `Session.OnAuthStateRepeated` |
| Session.Run | astar_frontend/src/api_services/auth-service.ts:33 | definition: the notifications of the `authState` subscription, each handled in turn; properties in `Session.RunConsistent`, `Session.RunSettles`, `Session.RunRejectedFetch` |
| Session.StoreCredential | astar_frontend/src/api_services/auth-service.ts:58-75 | definition: publish the token, throw on empty `providerData`, else write snapshot slot then token slot; properties in `Session.StoreCredentialConsistency`, `Session.StoreCredentialMatchesListener` |
| Session.GetBearerToken | astar_frontend/src/api_services/auth-service.ts:83-91 | definition: null without a user, else the fresh token held and stored; properties in `Session.GetBearerTokenEffect` |
| Session.LoginWithEmail | astar_frontend/src/api_services/auth-service.ts:96-100 | definition: sign in, then the write-through, passing either's error on; properties in `Session.LoginWithEmailEffect` |
| Session.LoginWithGoogle | astar_frontend/src/api_services/auth-service.ts:102-117 | definition: popup, then the write-through, every error caught; properties in `Session.LoginWithGoogleEffect` |
| Session.Logout | astar_frontend/src/api_services/auth-service.ts:119-126 | definition: token cleared and both slots removed; properties in `Session.LogoutSignsOut` |
| Session.FirstProviderId | astar_frontend/src/api_services/auth-service.ts:51 | the first provider's id when there is one, and null otherwise |
| Session.LoadConsistent | astar_frontend/src/api_services/auth-service.ts:77-81 | after startup the token in memory is the stored one, present exactly when the slot is |
| Session.OnAuthStateConsistent | astar_frontend/src/api_services/auth-service.ts:33-55 | each auth-state notification keeps the token in memory equal to the token slot |
| Session.RunConsistent | astar_frontend/src/api_services/auth-service.ts:33-55 | any sequence of notifications keeps them equal |
| Session.RunSettles | astar_frontend/src/api_services/auth-service.ts:33-55 | after notifications whose last one was "no user" or a user with a successful token fetch, a token is held exactly when that one had a user; its slots then hold that user's token and a snapshot that reads back; with no user both slots are gone |
| Session.RunRejectedFetch | astar_frontend/src/api_services/auth-service.ts:42 | a notification whose token fetch is rejected leaves the state exactly as it was, stale token included |
| Session.SignedOutThenRejectedFetch | astar_frontend/src/api_services/auth-service.ts:33-55 | signed out, then a user whose token fetch is rejected: no token is held and neither slot exists, although a user is present |
| Session.SignInThenOut | astar_frontend/src/api_services/auth-service.ts:33-55 | sign-in then sign-out: first the stored snapshot reads back with the user's uid and time, then token and both slots are gone |
| Session.OnAuthStateRepeated | astar_frontend/src/api_services/auth-service.ts:42-54 | a repeated notification for the same user leaves what the later one alone would |
| Session.StoreCredentialConsistency | astar_frontend/src/api_services/auth-service.ts:58-75 | the write-through keeps memory and the token slot equal unless it throws on a user without provider entries after publishing a new token |
| Session.StoreCredentialDivergence | astar_frontend/src/api_services/auth-service.ts:62-73 | a concrete login of a user without provider entries throws, leaving the new token in memory but not in storage |
| Session.StoreCredentialMatchesListener | astar_frontend/src/api_services/auth-service.ts:58-75 | for a user with provider entries, the write-through leaves the same state as the listener |
| Session.GetBearerTokenEffect | astar_frontend/src/api_services/auth-service.ts:83-91 | no user: null and no change; failed fetch: the error and no change; otherwise the fresh token is returned and held in memory and the token slot, with the snapshot slot untouched |
| Session.GetBearerTokenTwice | astar_frontend/src/api_services/auth-service.ts:83-91 | two refreshes both succeed and the later token is held |
| Session.BearerAndLogoutConsistent | astar_frontend/src/api_services/auth-service.ts:83-91 | a token refresh, and likewise logout, keep memory and the token slot equal |
| Session.LoginWithEmailEffect | astar_frontend/src/api_services/auth-service.ts:96-100 | a rejected sign-in or token fetch changes nothing and its error is passed on; the call succeeds only for an accepted user with provider entries whose fetch succeeded, and then returns the credential after token and snapshot are stored |
| Session.LoginWithGoogleEffect | astar_frontend/src/api_services/auth-service.ts:102-117 | never fails; navigation to the portal starts exactly when the popup, the fetch and the write-through all succeed, and then the state is the listener's; a rejected popup or fetch changes nothing; a user without provider entries leaves the fetched token in memory and storage as it was |
| Session.LogoutSignsOut | astar_frontend/src/api_services/auth-service.ts:119-126 | no token and neither slot remain, other keys are untouched, and a later no-user notification changes nothing |
| Auth.AuthService.constructor | astar_frontend/src/api_services/auth-service.ts:30-31 | the subject emits null and then the stored token, and the state is the loaded one |
| Auth.AuthService.LoadTokenFromLocalStorage | astar_frontend/src/api_services/auth-service.ts:77-81 | the signal and subject take the stored token; storage is untouched |
| Auth.AuthService.OnAuthStateChanged | astar_frontend/src/api_services/auth-service.ts:33-55 | the listener's transition, with the emissions and the storage calls in source order |
| Auth.AuthService.StoreCredentialToLocalStorage | astar_frontend/src/api_services/auth-service.ts:58-75 | the write-through's transition and outcome; snapshot slot written before token slot, nothing written when it throws |
| Auth.AuthService.GetBearerToken | astar_frontend/src/api_services/auth-service.ts:83-91 | the refresh transition and result, emitting and storing the fresh token only when there is a user and the fetch succeeds |
| Auth.AuthService.LoginWithEmail | astar_frontend/src/api_services/auth-service.ts:96-100 | the email login transition; a rejected sign-in emits and writes nothing; a successful one emits the fetched token once and, for a user with provider entries, writes the snapshot slot then the token slot, and nothing else (`Auth.SignInEmissions`, `Auth.SignInEffects`) |
| Auth.AuthService.LoginWithGoogle | astar_frontend/src/api_services/auth-service.ts:102-117 | the Google login transition and whether the portal navigation starts; a rejected popup emits and writes nothing; a successful one emits the fetched token once and, for a user with provider entries, writes the snapshot slot then the token slot, and nothing else (`Auth.SignInEmissions`, `Auth.SignInEffects`) |
| Auth.AuthService.Logout | astar_frontend/src/api_services/auth-service.ts:119-126 | emits null, removes the token slot, then the credential slot, then signs out |
| LoginPage.LoginEmailStep | astar_frontend/src/app/login-page-component/login-page-component.ts:28-47 | definition: invalid form marks touched; otherwise the service login, then home navigation, with the caught error shown and loading off at the end; properties in the `LoginPage.LoginEmail*` lemmas |
| LoginPage.LoginGoogleStep | astar_frontend/src/app/login-page-component/login-page-component.ts:49-61 | definition: the service's Google login, then home navigation, a rejected navigation shown and loading off at the end; properties in `LoginPage.LoginGoogleHidesPopupErrors` and `LoginPage.LoginGoogleNavigations` |
| LoginPage.PrettyFirebaseError | astar_frontend/src/app/login-page-component/login-page-component.ts:63-81 | each known code gets its fixed message; any other error shows its own message, or the generic one when it has none |
| LoginPage.KnownCodeHidesMessage | astar_frontend/src/app/login-page-component/login-page-component.ts:66-77 | for a known code the error's own message is irrelevant and the generic message never appears |
| LoginPage.PrettyFirebaseErrorNonEmpty | astar_frontend/src/app/login-page-component/login-page-component.ts:78-79 | an empty message is shown only for an unknown code carrying an empty message |
| LoginPage.LoginEmailInvalidForm | astar_frontend/src/app/login-page-component/login-page-component.ts:29-32 | an invalid form only marks the fields touched; the service is not called |
| LoginPage.LoginEmailSettles | astar_frontend/src/app/login-page-component/login-page-component.ts:34-46 | loading ends false; an error shows exactly when the service call or the navigation failed; navigation home happens exactly when the service call succeeded |
| LoginPage.LoginEmailWrongPassword | astar_frontend/src/app/login-page-component/login-page-component.ts:42-43 | a wrong password shows "Incorrect email or password." and leaves the session unchanged |
| LoginPage.LoginEmailWithoutProviderData | astar_frontend/src/app/login-page-component/login-page-component.ts:39-46 | a user without provider entries sees the TypeError text while the token is held but not stored |
| LoginPage.LoginGoogleHidesPopupErrors | astar_frontend/src/app/login-page-component/login-page-component.ts:49-61 | whatever the popup reports, a successful final navigation leaves no message on the page |
| LoginPage.LoginGoogleNavigations | astar_frontend/src/app/login-page-component/login-page-component.ts:53-60 | the portal is requested before home exactly when the service stored the credential; a message, the rejected navigation's, shows exactly when navigation failed; loading ends false on every path and the form is untouched |
| LoginPage.LoginPageComponent.constructor | astar_frontend/src/app/login-page-component/login-page-component.ts:20-21 | not loading, no message, nothing touched, no navigation |
| LoginPage.LoginPageComponent.LoginEmail | astar_frontend/src/app/login-page-component/login-page-component.ts:28-47 | service state and page follow the email login transition; an invalid form leaves the service untouched; a submitted form makes the service emit and write exactly what its email login does |
| LoginPage.LoginPageComponent.LoginGoogle | astar_frontend/src/app/login-page-component/login-page-component.ts:49-61 | service state and page follow the Google login transition; the service emits and writes exactly what its Google login does |

## Left out

- I/O is not modelled. Local storage, the environment, HTTP requests and responses are maps and
  fields. Logging (`console.log`, `log.Printf`) and `godotenv.Load` are left out.
- JWT signature and expiry checking and Firebase ID-token verification are not modelled. They
  are oracle objects that accept a fixed set of tokens.
- Asynchronous interleaving is not modelled. Each handler runs to completion, so the race
  between the `authState` listener and a login's write-through is not captured. The listener's
  unhandled rejection when `getIdToken` fails is modelled as "no change".
- Intermediate states are not modelled: `loading == true` during an await is not observable.
- Angular's zone and the router's own work are not modelled. A navigation is the URL it
  requests and an `Outcome` for how its promise settles. The result of `router.navigate`
  inside `ngZone.run` is not awaited by the source and is ignored.
- Form validation (`Validators.required`, `Validators.email`) is a `formValid` parameter. The
  email and password are folded into how `signInWithEmailAndPassword` settles.
- Gin's recovery middleware turning a panic into a 500 response is not modelled.
  `FirebaseAuthMiddleware` reports the panic and the keys stored before it.
- Header-name canonicalisation is not modelled. `Context.GetHeader` looks the name up exactly.
- Invalid UTF-8 and byte-level string handling are not modelled. Go and TypeScript strings are
  sequences of characters.
- GoStrings.EqualFold folds ASCII letters only. Go's Unicode simple folding also relates some
  non-ASCII characters to ASCII ones (the Kelvin sign and "k", the long s and "s"). None of
  those fold to a letter of "bearer", so the parser's behaviour is unchanged.
- SnapshotJson.Parse reads only the text `JSON.stringify` produces for a snapshot. It is not a
  general `JSON.parse`.
- `localStorage.setItem` and `removeItem` are taken never to throw. A `QuotaExceededError` or
  `SecurityError` from storage is not modelled.
- The TypeError in `Session.ProviderDataTypeError` carries V8's message for reading a
  property of `undefined`. Other JavaScript engines word that TypeError differently, and the
  page would show their text.
- `logout`'s `signOut` promise is recorded as an effect. Its settling is not modelled.
- Functions outside the authentication core are not part of this model: the JWT issuing helper,
  `main`'s routing, and the portal and landing components.
