/** The backend's `fbase` package (astar_backend/fbase/auth.go): its own copy of the bearer
    parser and the decision logic of the Firebase ID-token middleware. */
module Fbase {
  import opened Base
  import opened GoStrings
  import opened Gin
  import Backend

  /** `extractBearer` as written a second time in this package. */
  function ExtractBearer(authHeader: string): (token: string)
  {
    if authHeader == "" then ""
    else
      var parts := SplitN2(authHeader, ' ');
      if |parts| != 2 then ""
      else if !EqualFold(parts[0], "bearer") then ""
      else TrimSpace(parts[1])
  }

  /** The two copies agree on every header, so everything proved about the `main` package's
      parser holds for this one. */
  lemma ExtractBearerAgrees(authHeader: string)
    ensures ExtractBearer(authHeader) == Backend.ExtractBearer(authHeader)
  {
  }

  /** A claim value of a decoded ID token: a JSON string, or a value of another JSON type. */
  datatype ClaimValue = StringClaim(text: string) | OtherClaim

  /** What `VerifyIDToken` decodes: the Firebase uid and the token's claims. */
  datatype IdToken = IdToken(uid: string, claims: map<string, ClaimValue>)

  /** `claims[name].(string)` in its comma-ok form: the string, or nothing when the claim is
      missing or is not a string. */
  function StringClaimOf(claims: map<string, ClaimValue>, name: string): (r: Option<string>)
    ensures r.Some? <==> name in claims && claims[name].StringClaim?
    ensures r.Some? ==> r.value == claims[name].text
  {
    if name in claims && claims[name].StringClaim? then Some(claims[name].text) else None
  }

  /** `authClient.VerifyIDToken` as an oracle: `valid` holds the ID tokens Firebase accepts,
      with what they decode to. Every call is recorded in `consulted`. */
  class IdTokenVerifier {
    const valid: map<string, IdToken>
    var consulted: seq<string>

    constructor (valid: map<string, IdToken>)
      ensures this.valid == valid && consulted == []
    {
      this.valid := valid;
      consulted := [];
    }

    method VerifyIDToken(idToken: string) returns (r: Result<IdToken, string>)
      modifies this`consulted
      ensures consulted == old(consulted) + [idToken]
      ensures r.Ok? <==> idToken in valid
      ensures r.Ok? ==> r.value == valid[idToken]
    {
      consulted := consulted + [idToken];
      if idToken in valid {
        r := Ok(valid[idToken]);
      } else {
        r := Err("ID token is invalid or expired");
      }
    }
  }

  /** `FirebaseAuthMiddleware`: a request without a bearer token is refused before Firebase is
      asked; a token Firebase rejects is refused with nothing stored; an accepted token stores
      `user_id`, then `user_email` and `user_name` (the unchecked `.(string)` assertions panic,
      reported as `panicked`, when either claim is missing or not a string, leaving what was
      stored so far), then `role` when that claim is a string, and only then passes the request on,
      so the handler sees every key stored. */
  method FirebaseAuthMiddleware(c: Context, verifier: IdTokenVerifier) returns (panicked: bool)
    modifies c, verifier
    ensures var token := ExtractBearer(c.GetHeader("Authorization"));
      if token == "" then
        verifier.consulted == old(verifier.consulted) && !panicked
        && c.aborted && c.status == StatusUnauthorized && c.errorBody == Some("missing bearer token")
        && c.keys == old(c.keys) && c.nextCalled == old(c.nextCalled)
        && c.handlerKeys == old(c.handlerKeys)
      else if token !in verifier.valid then
        verifier.consulted == old(verifier.consulted) + [token] && !panicked
        && c.aborted && c.status == StatusUnauthorized
        && c.errorBody == Some("invalid or expired fbase token")
        && c.keys == old(c.keys) && c.nextCalled == old(c.nextCalled)
        && c.handlerKeys == old(c.handlerKeys)
      else
        var decoded := verifier.valid[token];
        var email := StringClaimOf(decoded.claims, "email");
        var name := StringClaimOf(decoded.claims, "name");
        var role := StringClaimOf(decoded.claims, "role");
        var withUid := old(c.keys)["user_id" := decoded.uid];
        verifier.consulted == old(verifier.consulted) + [token]
        && c.aborted == old(c.aborted) && c.status == old(c.status) && c.errorBody == old(c.errorBody)
        && (panicked <==> email.None? || name.None?)
        && (email.None? ==> c.keys == withUid)
        && (email.Some? && name.None? ==> c.keys == withUid["user_email" := email.value])
        && (!panicked ==>
              c.keys == (var named := withUid["user_email" := email.value]["user_name" := name.value];
                         if role.Some? then named["role" := role.value] else named))
        && c.nextCalled == (old(c.nextCalled) || !panicked)
        && c.handlerKeys == (if panicked then old(c.handlerKeys) else Some(c.keys))
  {
    var tokenString := ExtractBearer(c.GetHeader("Authorization"));
    if tokenString == "" {
      c.AbortWithStatusJSON(StatusUnauthorized, "missing bearer token");
      return false;
    }
    var decoded := verifier.VerifyIDToken(tokenString);
    if decoded.Err? {
      c.AbortWithStatusJSON(StatusUnauthorized, "invalid or expired fbase token");
      return false;
    }
    c.Set("user_id", decoded.value.uid);
    var email := StringClaimOf(decoded.value.claims, "email");
    if email.None? {
      return true;
    }
    c.Set("user_email", email.value);
    var name := StringClaimOf(decoded.value.claims, "name");
    if name.None? {
      return true;
    }
    c.Set("user_name", name.value);
    var role := StringClaimOf(decoded.value.claims, "role");
    if role.Some? {
      c.Set("role", role.value);
    }
    c.Next();
    return false;
  }
}
