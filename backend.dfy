/** The backend's `main` package (astar_backend/main.go): the bearer-header parser, the
    configuration helpers, and the decision logic of the JWT middleware. */
module Backend {
  import opened Base
  import opened GoStrings
  import opened Gin

  // ---------------------------------------------------------------------------
  // Authorization header

  /** `extractBearer`: the token of an `Authorization: Bearer <token>` header, or "" when the
      header is empty, has no space, or its first word is not "bearer" in any letter case.
      The token is whatever follows the first space, trimmed; its characters are not checked. */
  function ExtractBearer(authHeader: string): (token: string)
    ensures IsTrimmed(token)
    ensures token != "" ==>
      |authHeader| > 7 && EqualFold(authHeader[..6], "bearer") && authHeader[6] == ' '
      && token == TrimSpace(authHeader[7..])
  {
    if authHeader == "" then ""
    else
      var parts := SplitN2(authHeader, ' ');
      if |parts| != 2 then ""
      else if !EqualFold(parts[0], "bearer") then ""
      else
        EqualFoldLength(parts[0], "bearer");
        assert authHeader[..6] == parts[0] && authHeader[7..] == parts[1] by {
          assert authHeader == parts[0] + [' '] + parts[1];
        }
        TrimSpace(parts[1])
  }

  /** The header a client sends for a token, in the form of section 2.1 of RFC 6750. */
  function FormatBearer(token: string): (header: string)
  {
    "Bearer " + token
  }

  lemma {:induction false} EqualFoldLength(s: string, t: string)
    requires EqualFold(s, t)
    ensures |s| == |t|
  {
    if s != [] && t != [] {
      EqualFoldLength(s[1..], t[1..]);
    }
  }

  /** A string that matches "bearer" up to case holds no space. */
  lemma {:induction false} BearerSchemeHasNoSpace(scheme: string)
    requires EqualFold(scheme, "bearer")
    ensures ' ' !in scheme
  {
    EqualFoldLength(scheme, "bearer");
    EqualFoldIffSameLower(scheme, "bearer");
    forall k | 0 <= k < 6 ensures scheme[k] != ' ' {
      assert ToLowerAscii(scheme)[k] == ToLowerAscii("bearer")[k];
    }
  }

  /** Conversely, any scheme word equal to "bearer" up to case, a space, and any remainder give
      the trimmed remainder. */
  lemma ExtractBearerOfScheme(scheme: string, rest: string)
    requires EqualFold(scheme, "bearer")
    ensures ExtractBearer(scheme + " " + rest) == TrimSpace(rest)
  {
    var h := scheme + " " + rest;
    BearerSchemeHasNoSpace(scheme);
    EqualFoldLength(scheme, "bearer");
    assert h[6] == ' ' && h[..6] == scheme && h[7..] == rest;
    IndexOfFirst(h, ' ', 6);
  }

  /** Index finds a position holding `c` with no `c` before it. */
  lemma {:induction false} IndexOfFirst(s: string, c: char, i: nat)
    requires i < |s| && s[i] == c && c !in s[..i]
    ensures Index(s, c) == i
  {
    if i > 0 {
      assert s[0] == s[..i][0];
      assert s[1..][..i - 1] == s[..i][1..];
      IndexOfFirst(s[1..], c, i - 1);
    }
  }

  /** The spellings of the scheme word used below all match "bearer". */
  lemma BearerSpellings()
    ensures EqualFold("Bearer", "bearer") && EqualFold("bearer", "bearer") && EqualFold("BEARER", "bearer")
  {
    EqualFoldIffSameLower("Bearer", "bearer");
    EqualFoldIffSameLower("bearer", "bearer");
    EqualFoldIffSameLower("BEARER", "bearer");
    assert ToLowerAscii("Bearer") == ToLowerAscii("bearer");
    assert ToLowerAscii("BEARER") == ToLowerAscii("bearer");
  }

  /** Round trip: a trimmed token written as a bearer header is extracted unchanged. */
  lemma ExtractFormatted(token: string)
    requires IsTrimmed(token)
    ensures ExtractBearer(FormatBearer(token)) == token
  {
    var h := FormatBearer(token);
    assert h == "Bearer" + " " + token;
    assert ExtractBearer(h) == TrimSpace(token) by {
      BearerSpellings();
      ExtractBearerOfScheme("Bearer", token);
    }
    TrimSpaceOfTrimmed(token);
  }

  /** The three ways `extractBearer` gives up: empty header, no space, a scheme other than
      "bearer". */
  lemma ExtractBearerRejects(authHeader: string)
    requires authHeader == "" || ' ' !in authHeader
      || !EqualFold(authHeader[..Index(authHeader, ' ')], "bearer")
    ensures ExtractBearer(authHeader) == ""
  {
  }

  /** Concrete headers: the scheme is matched in any letter case. */
  lemma ExtractBearerAnyCase()
    ensures ExtractBearer("Bearer x") == "x"
    ensures ExtractBearer("bearer x") == "x"
    ensures ExtractBearer("BEARER x") == "x"
  {
    assert "Bearer x" == "Bearer" + " " + "x";
    assert "bearer x" == "bearer" + " " + "x";
    assert "BEARER x" == "BEARER" + " " + "x";
    BearerSpellings();
    TrimSpaceOfTrimmed("x");
    ExtractBearerOfScheme("Bearer", "x");
    ExtractBearerOfScheme("bearer", "x");
    ExtractBearerOfScheme("BEARER", "x");
  }

  /** Concrete headers: other schemes and a missing space are refused. */
  lemma ExtractBearerOtherScheme()
    ensures ExtractBearer("Basic x") == ""
    ensures ExtractBearer("Bearertok") == ""
  {
    var b := "Basic x";
    IndexOfFirst(b, ' ', 5);
    if EqualFold(b[..5], "bearer") { EqualFoldLength(b[..5], "bearer"); }
    assert ' ' !in "Bearertok";
  }

  /** Concrete headers: a blank token counts as missing. */
  lemma ExtractBearerBlank()
    ensures ExtractBearer("Bearer ") == ""
  {
    assert "Bearer " == "Bearer" + " " + "";
    BearerSpellings();
    ExtractBearerOfScheme("Bearer", "");
  }

  /** White space between the scheme's space and the token, and after the token, is dropped. */
  lemma ExtractBearerPadded(pre: string, token: string, post: string)
    requires AllSpace(pre) && AllSpace(post) && token != [] && IsTrimmed(token)
    ensures ExtractBearer(FormatBearer(pre + token + post)) == token
  {
    var rest := pre + token + post;
    assert FormatBearer(rest) == "Bearer" + " " + rest;
    BearerSpellings();
    ExtractBearerOfScheme("Bearer", rest);
    TrimSpacePadded(pre, token, post);
  }

  /** The padded example header below, as `FormatBearer` writes it. Kept apart from the lemma
      that uses it, whose proof is cheaper when this string equation is settled separately. */
  lemma PaddedExampleHeader()
    ensures FormatBearer(" " + "tok" + " ") == "Bearer  tok "
  {
  }

  /** Concrete headers: the token is trimmed. */
  lemma ExtractBearerTrims()
    ensures ExtractBearer("Bearer  tok ") == "tok"
  {
    ExtractBearerPadded(" ", "tok", " ");
    PaddedExampleHeader();
  }

  // ---------------------------------------------------------------------------
  // Configuration

  /** `getenv`: the environment's value for `k`, or `fallback` when it is unset or empty
      (`os.Getenv` does not tell the two apart). */
  function Getenv(env: map<string, string>, k: string, fallback: string): (v: string)
    ensures (k !in env || env[k] == "") ==> v == fallback
    ensures k in env && env[k] != "" ==> v == env[k]
    ensures v == "" ==> fallback == ""
  {
    var value := if k in env then env[k] else "";
    if value == "" then fallback else value
  }

  datatype Config = Config(addr: string, jwtSecret: string, corsAllowedOrigins: seq<string>)

  const DefaultAddr := ":8080"
  const DefaultJwtSecret := "dev-secret-change-me"
  const DefaultOrigins := "http://localhost:4200"

  /** `loadConfig` after `.env` has been merged into the environment `env`. */
  function LoadConfig(env: map<string, string>): (c: Config)
    ensures c.addr == Getenv(env, "BACKEND_PORT", DefaultAddr)
    ensures c.jwtSecret == Getenv(env, "JWT_SECRET", DefaultJwtSecret)
    ensures c.addr != "" && c.jwtSecret != ""
    ensures forall o | o in c.corsAllowedOrigins :: o != "" && IsTrimmed(o)
    ensures c.corsAllowedOrigins
      == TrimmedNonBlank(Split(Getenv(env, "CORS_ALLOWED_ORIGINS", DefaultOrigins), ','))
  {
    var addr := Getenv(env, "BACKEND_PORT", DefaultAddr);
    var secret := Getenv(env, "JWT_SECRET", DefaultJwtSecret);
    var origins := Getenv(env, "CORS_ALLOWED_ORIGINS", DefaultOrigins);
    Config(addr, secret, TrimmedNonBlank(Split(origins, ',')))
  }

  /** With none of its three variables set, the configuration is the development default. */
  lemma LoadConfigDefaults(env: map<string, string>)
    requires forall k | k in {"BACKEND_PORT", "JWT_SECRET", "CORS_ALLOWED_ORIGINS"} ::
      k !in env || env[k] == ""
    ensures LoadConfig(env) == Config(":8080", "dev-secret-change-me", ["http://localhost:4200"])
  {
    assert "CORS_ALLOWED_ORIGINS" in {"BACKEND_PORT", "JWT_SECRET", "CORS_ALLOWED_ORIGINS"};
    var c := LoadConfig(env);
    assert c.addr == DefaultAddr && c.jwtSecret == DefaultJwtSecret;
    assert Getenv(env, "CORS_ALLOWED_ORIGINS", DefaultOrigins) == DefaultOrigins;
    assert TrimmedNonBlank(Split(DefaultOrigins, ',')) == [DefaultOrigins] by {
      DefaultOriginsIsOneItem();
      SplitNoSeparator(DefaultOrigins, ',');
      TrimSpaceOfTrimmed(DefaultOrigins);
      assert [DefaultOrigins][..0] == [];
    }
  }

  lemma DefaultOriginsIsOneItem()
    ensures ',' !in DefaultOrigins && IsTrimmed(DefaultOrigins)
  {
  }

  /** The items `splitAndTrim` keeps from `items`, in order: each one trimmed, blank ones dropped. */
  function TrimmedNonBlank(items: seq<string>): (out: seq<string>)
    ensures |out| <= |items|
    ensures forall x | x in out :: x != "" && IsTrimmed(x)
  {
    if items == [] then []
    else
      var kept := TrimmedNonBlank(items[..|items| - 1]);
      var t := TrimSpace(items[|items| - 1]);
      if t != "" then kept + [t] else kept
  }

  /** Order is kept: the items of a concatenation are those of each half, one after the other. */
  lemma {:induction false} TrimmedNonBlankAppend(a: seq<string>, b: seq<string>)
    ensures TrimmedNonBlank(a + b) == TrimmedNonBlank(a) + TrimmedNonBlank(b)
  {
    if b == [] {
      assert a + b == a;
    } else {
      TrimmedNonBlankAppend(a, b[..|b| - 1]);
      assert (a + b)[..|a + b| - 1] == a + b[..|b| - 1];
      assert (a + b)[|a + b| - 1] == b[|b| - 1];
    }
  }

  /** An item is kept exactly when it is the trimmed form of some non-blank input item. */
  lemma {:induction false} TrimmedNonBlankMembers(items: seq<string>, x: string)
    ensures x in TrimmedNonBlank(items) <==>
      x != "" && exists i | 0 <= i < |items| :: TrimSpace(items[i]) == x
  {
    if items != [] {
      var init := items[..|items| - 1];
      TrimmedNonBlankMembers(init, x);
      if x != "" && (exists i | 0 <= i < |items| :: TrimSpace(items[i]) == x) {
        var i :| 0 <= i < |items| && TrimSpace(items[i]) == x;
        if i < |items| - 1 { assert TrimSpace(init[i]) == x; }
      }
      if exists i | 0 <= i < |init| :: TrimSpace(init[i]) == x {
        var i :| 0 <= i < |init| && TrimSpace(init[i]) == x;
        assert TrimSpace(items[i]) == x;
      }
    }
  }

  /** `splitAndTrim`: the comma-separated items of `s`, trimmed, blank ones dropped. */
  method SplitAndTrim(s: string) returns (out: seq<string>)
    ensures out == TrimmedNonBlank(Split(s, ','))
    ensures |out| <= multiset(s)[','] + 1
    ensures forall x | x in out :: x != "" && IsTrimmed(x)
  {
    var raw := Split(s, ',');
    out := [];
    for i := 0 to |raw|
      invariant out == TrimmedNonBlank(raw[..i])
    {
      var t := TrimSpace(raw[i]);
      if t != "" {
        out := out + [t];
      }
      assert raw[..i + 1][..i] == raw[..i];
    }
    assert raw[..|raw|] == raw;
  }

  // ---------------------------------------------------------------------------
  // JWT middleware

  /** The claims `parseAndValidateJWT` hands back. */
  datatype CustomClaims = CustomClaims(userID: string, role: string)

  /** `parseAndValidateJWT` under one secret, as an oracle: `valid` holds the token strings that
      pass signature and expiry checks, with their claims. Every call is recorded in `consulted`. */
  class JwtValidator {
    const secret: string
    const valid: map<string, CustomClaims>
    var consulted: seq<string>

    constructor (secret: string, valid: map<string, CustomClaims>)
      ensures this.secret == secret && this.valid == valid && consulted == []
    {
      this.secret := secret;
      this.valid := valid;
      consulted := [];
    }

    method ParseAndValidate(tokenString: string) returns (r: Result<CustomClaims, string>)
      modifies this`consulted
      ensures consulted == old(consulted) + [tokenString]
      ensures r.Ok? <==> tokenString in valid
      ensures r.Ok? ==> r.value == valid[tokenString]
    {
      consulted := consulted + [tokenString];
      if tokenString in valid {
        r := Ok(valid[tokenString]);
      } else {
        r := Err("token is invalid");
      }
    }
  }

  /** `authMiddleware`: a request without a bearer token is refused before the validator is
      asked; a token the validator rejects is refused; only a valid token stores `user_id` and
      `role` and then passes the request on, so the handler sees both keys. */
  method AuthMiddleware(c: Context, validator: JwtValidator)
    modifies c, validator
    ensures var token := ExtractBearer(c.GetHeader("Authorization"));
      if token == "" then
        validator.consulted == old(validator.consulted)
        && c.aborted && c.status == StatusUnauthorized && c.errorBody == Some("missing bearer token")
        && c.keys == old(c.keys) && c.nextCalled == old(c.nextCalled)
        && c.handlerKeys == old(c.handlerKeys)
      else if token !in validator.valid then
        validator.consulted == old(validator.consulted) + [token]
        && c.aborted && c.status == StatusUnauthorized
        && c.errorBody == Some("invalid or expired token")
        && c.keys == old(c.keys) && c.nextCalled == old(c.nextCalled)
        && c.handlerKeys == old(c.handlerKeys)
      else
        var claims := validator.valid[token];
        validator.consulted == old(validator.consulted) + [token]
        && c.keys == old(c.keys)["user_id" := claims.userID]["role" := claims.role]
        && c.nextCalled && c.handlerKeys == Some(c.keys)
        && c.aborted == old(c.aborted) && c.status == old(c.status) && c.errorBody == old(c.errorBody)
  {
    var auth := c.GetHeader("Authorization");
    var tokenString := ExtractBearer(auth);
    if tokenString == "" {
      c.AbortWithStatusJSON(StatusUnauthorized, "missing bearer token");
      return;
    }
    var claims := validator.ParseAndValidate(tokenString);
    if claims.Err? {
      c.AbortWithStatusJSON(StatusUnauthorized, "invalid or expired token");
      return;
    }
    c.Set("user_id", claims.value.userID);
    c.Set("role", claims.value.role);
    c.Next();
  }
}
