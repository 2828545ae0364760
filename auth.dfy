/** The OIDC flow of `blueprints/auth`: URL builders, the per-session token cache, and the
    `login`, `signin_oidc` and `logout` handlers over the session record.

    Each handler is specified by a function from the old session record to an `Outcome` (the
    new record, the response, and the provider calls made); the methods of `Session` do the
    work step by step, as the handlers do, and are proved to produce that outcome. */
module Auth {
  import opened Wrappers
  import opened Roles
  import opened Config
  import opened External

  /** `flask.Response(status=307)` in `login`. */
  const TemporaryRedirect := 307
  /** The status `flask.redirect` uses by default. */
  const Found := 302

  const AuthorityBase := "https://login.microsoftonline.com/"
  const LogoutPath := "/oauth2/v2.0/logout?post_logout_redirect_uri="
  const DefaultScopes: seq<string> := ["User.Read"]
  const SelectAccount := "select_account"
  const StateMismatchMessage := "State does not match"
  /** The result dict shown when the user lacks read access. */
  const AccessDeniedResult: map<string, string> :=
    map["error" := "Authentication Failed",
        "error_description" := "User does not have at least read access to this application."]

  /** `str(uuid.uuid4())`: the canonical 36-character form. */
  type UuidString = s: string | |s| == 36 witness "00000000-0000-0000-0000-000000000000"

  /** What a handler returns or raises. `AuthErrorPage` is `render_template("auth_error.html", ...)`. */
  datatype Response =
    | Redirect(status: int, location: string)
    | AuthErrorPage(result: map<string, string>, applicationRootUri: string)
    | Raised(exception: Exception)

  /** The three keys of the session dict the core uses. */
  datatype SessionView = SessionView(state: Option<string>, user: Option<Claims>, tokenCache: Option<string>)

  const EmptySession := SessionView(None, None, None)

  /** A handler's effect: the new session record, its response, and the provider calls it made. */
  datatype Outcome = Outcome(session: SessionView, response: Response, calls: seq<ProviderCall>)

  /** The invariant the handlers keep: a stored user has at least read access. */
  predicate UserAuthorised(v: SessionView) {
    v.user.Some? ==> HasReadAccess(v.user.value)
  }

  // ---------------------------------------------------------------- URL builders

  /** `_get_authority`. */
  function GetAuthority(tenant: string): (r: string)
    ensures |r| == |AuthorityBase| + |tenant|
    ensures r[..|AuthorityBase|] == AuthorityBase && r[|AuthorityBase|..] == tenant
  {
    AuthorityBase + tenant
  }

  /** `_build_msal_app`: the client is built from the config's id, secret and tenant authority. */
  function BuildMsalApp(config: AuthConfig): (app: ClientApp)
    ensures app.clientId == config.clientId && app.clientCredential == config.clientSecret
    ensures |AuthorityBase| <= |app.authority|
    ensures app.authority[..|AuthorityBase|] == AuthorityBase
    ensures app.authority[|AuthorityBase|..] == config.tenant
  {
    ClientApp(config.clientId, GetAuthority(config.tenant), config.clientSecret)
  }

  /** `url_for('.signin_oidc', _external=True, _scheme=auth_config['HTTPS_SCHEME'])`. */
  function SigninRedirectUri(config: AuthConfig, urlFor: UrlFor): (r: string)
    // `login` passes this URI explicitly; it is also the one `_build_auth_url` falls back to
    ensures forall fallback: UuidString ::
              && BuildAuthRequest(config, urlFor, Some(r), None, None, fallback).redirectUri == r
              && BuildAuthRequest(config, urlFor, None, None, None, fallback).redirectUri == r
  {
    urlFor(SigninOidc, Some(config.httpsScheme))
  }

  /** `application_root_uri or url_for('index')`. */
  function AppRootUri(bp: Blueprint, urlFor: UrlFor): (r: string)
    ensures bp.applicationRootUri.Some? && bp.applicationRootUri.value != "" ==> r == bp.applicationRootUri.value
    ensures bp.applicationRootUri.None? || bp.applicationRootUri.value == "" ==> r == urlFor(Index, None)
  {
    OrString(bp.applicationRootUri, urlFor(Index, None))
  }

  /** `_build_logout_url`: the tenant's authority, the logout path, then the post-logout
      redirect, which is `redirect_url` unless that is absent or empty. */
  function BuildLogoutUrl(config: AuthConfig, redirectUrl: Option<string>, urlFor: UrlFor): (r: string)
    ensures var p := BuildMsalApp(config).authority + LogoutPath;
            && |p| <= |r|
            && r[..|p|] == p
            && r[|p|..] == OrString(redirectUrl, urlFor(LogoutComplete, Some(config.httpsScheme)))
  {
    var authority := GetAuthority(config.tenant);
    var postLogoutRedirectUrl := OrString(redirectUrl, urlFor(LogoutComplete, Some(config.httpsScheme)));
    authority + LogoutPath + postLogoutRedirectUrl
  }

  /** The request `_build_auth_url` hands to `get_authorization_request_url`: each of scopes,
      state and redirect URI falls back to its default when absent or empty; `fallbackState`
      stands for the `str(uuid.uuid4())` evaluated in that case. */
  function BuildAuthRequest(config: AuthConfig, urlFor: UrlFor, redirectUri: Option<string>,
                            scopes: Option<seq<string>>, state: Option<string>,
                            fallbackState: UuidString): (r: AuthRequest)
    ensures r.app == BuildMsalApp(config) && r.prompt == SelectAccount
    ensures r.scopes != [] && r.state != ""
    ensures scopes.Some? && scopes.value != [] ==> r.scopes == scopes.value
    ensures state.Some? && state.value != "" ==> r.state == state.value
    ensures redirectUri.Some? && redirectUri.value != "" ==> r.redirectUri == redirectUri.value
    ensures scopes.None? || scopes.value == [] ==> r.scopes == DefaultScopes
    ensures state.None? || state.value == "" ==> r.state == fallbackState
    ensures redirectUri.None? || redirectUri.value == "" ==> r.redirectUri == urlFor(SigninOidc, Some(config.httpsScheme))
  {
    AuthRequest(
      BuildMsalApp(config),
      OrSeq(scopes, DefaultScopes),
      OrString(state, fallbackState),
      SelectAccount,
      OrString(redirectUri, urlFor(SigninOidc, Some(config.httpsScheme))))
  }

  // ---------------------------------------------------------------- token cache

  /** The serialised state of a new, empty `SerializableTokenCache`. */
  const EmptyCacheData := ""

  /** What `_load_cache` deserialises: the stored cache when it is present and non-empty. */
  function LoadedCache(v: SessionView): (r: string)
    ensures v.tokenCache.Some? ==> r == v.tokenCache.value
    ensures v.tokenCache.None? ==> r == EmptyCacheData
  {
    if v.tokenCache.Some? && v.tokenCache.value != "" then v.tokenCache.value else EmptyCacheData
  }

  /** `_save_cache`: the session is written only when the cache has changed. */
  function SaveCacheOutcome(v: SessionView, changed: bool, data: string): (r: SessionView)
    ensures r.state == v.state && r.user == v.user
    ensures changed ==> r.tokenCache == Some(data)
    ensures !changed ==> r == v
  {
    if changed then v.(tokenCache := Some(data)) else v
  }

  /** MSAL's `SerializableTokenCache`: its state, kept as its serialised form, and the flag that
      says whether a provider call changed it since it was created or deserialised. */
  class TokenCache {
    var data: string
    var hasStateChanged: bool

    constructor()
      ensures data == EmptyCacheData && !hasStateChanged
    {
      data := EmptyCacheData;
      hasStateChanged := false;
    }

    method Deserialize(blob: string)
      modifies this
      ensures data == blob && !hasStateChanged
    {
      data := blob;
      hasStateChanged := false;
    }

    /** The serialised form is the cache's state itself: the format is not modelled. */
    function Serialize(): (r: string)
      reads this
      ensures r == data
    {
      data
    }

    /** A provider call ran against this cache and left `write` in it when it changed it. */
    method Record(write: Option<string>)
      modifies this
      ensures data == write.GetOr(old(data))
      ensures hasStateChanged == (old(hasStateChanged) || write.Some?)
    {
      if write.Some? {
        data := write.value;
        hasStateChanged := true;
      }
    }
  }

  /** The result of `_get_token_from_cache`, with the session record it leaves. */
  datatype TokenOutcome = TokenOutcome(session: SessionView, token: Option<Token>, calls: seq<ProviderCall>)

  /** `_get_token_from_cache`: nothing when the cache has no account; otherwise a silent
      acquisition for the first account, after which the cache is saved. */
  function TokenFromCacheOutcome(v: SessionView, config: AuthConfig, scope: seq<string>, provider: Provider): (o: TokenOutcome)
    ensures var app := BuildMsalApp(config);
            var accounts := provider.getAccounts(app, LoadedCache(v));
            && o.session.state == v.state && o.session.user == v.user
            && |o.calls| >= 1 && o.calls[0] == AccountsCall(app)
            && (accounts == [] ==> o.token.None? && o.session == v && o.calls == [AccountsCall(app)])
            && (accounts != [] ==>
                  var req := SilentRequest(app, scope, accounts[0]);
                  var s := provider.acquireTokenSilent(req, LoadedCache(v));
                  && o.calls == [AccountsCall(app), SilentCall(req)]
                  && o.token == s.token
                  && o.session.tokenCache == (if s.cacheWrite.Some? then s.cacheWrite else v.tokenCache))
  {
    var loaded := LoadedCache(v);
    var app := BuildMsalApp(config);
    var accounts := provider.getAccounts(app, loaded);
    if accounts == [] then
      TokenOutcome(v, None, [AccountsCall(app)])
    else
      var req := SilentRequest(app, scope, accounts[0]);
      var s := provider.acquireTokenSilent(req, loaded);
      TokenOutcome(SaveCacheOutcome(v, s.cacheWrite.Some?, s.cacheWrite.GetOr(loaded)), s.token,
                   [AccountsCall(app), SilentCall(req)])
  }

  // ---------------------------------------------------------------- handlers

  /** `login`: a fresh state is stored, and the 307 redirect carries that same state. */
  function LoginOutcome(v: SessionView, bp: Blueprint, urlFor: UrlFor, provider: Provider, uuid: UuidString): (o: Outcome)
    ensures o.session == v.(state := Some(uuid)) && o.calls == []
    ensures o.response == Redirect(TemporaryRedirect, provider.authorizationRequestUrl(
              AuthRequest(BuildMsalApp(bp.config), DefaultScopes, uuid, SelectAccount,
                          SigninRedirectUri(bp.config, urlFor))))
  {
    var redirectUri := SigninRedirectUri(bp.config, urlFor);
    var v' := v.(state := Some(uuid));
    var authUrl := provider.authorizationRequestUrl(
      BuildAuthRequest(bp.config, urlFor, Some(redirectUri), None, v'.state, uuid));
    Outcome(v', Redirect(TemporaryRedirect, authUrl), [])
  }

  /** The code exchange `signin_oidc` asks of the provider. */
  function CodeRequestFor(code: string, config: AuthConfig, urlFor: UrlFor): CodeRequest {
    CodeRequest(BuildMsalApp(config), code, DefaultScopes, SigninRedirectUri(config, urlFor))
  }

  /** The provider's answer to that exchange, against the cache loaded from the session. */
  function Exchange(v: SessionView, code: string, config: AuthConfig, urlFor: UrlFor, provider: Provider): CodeExchange {
    provider.acquireTokenByAuthorizationCode(CodeRequestFor(code, config, urlFor), LoadedCache(v))
  }

  /** The state check of `signin_oidc`: `request.args.get('state') == session.get("state")`. */
  predicate StateMatches(v: SessionView, args: map<string, string>)
    ensures "state" in args ==> (StateMatches(v, args) <==> v.state == Some(args["state"]))
    ensures "state" !in args ==> (StateMatches(v, args) <==> v.state.None?)
  {
    Lookup(args, "state") == v.state
  }

  /** Every check of `signin_oidc`, in source order, that a callback must pass for the user to
      be stored: matching state, no `error` parameter, a non-empty `code`, an exchange result
      without `error`, claims present, and read access. */
  predicate CallbackAccepted(v: SessionView, args: map<string, string>, bp: Blueprint, urlFor: UrlFor, provider: Provider) {
    && StateMatches(v, args)
    && "error" !in args
    && "code" in args && args["code"] != ""
    && var r := Exchange(v, args["code"], bp.config, urlFor, provider).response;
       && "error" !in r.fields
       && r.idTokenClaims.Some?
       && HasReadAccess(r.idTokenClaims.value)
  }

  /** `signin_oidc`. */
  function SigninOutcome(v: SessionView, args: map<string, string>, bp: Blueprint, urlFor: UrlFor, provider: Provider): (o: Outcome)
    // the state check comes first, and a mismatch raises before anything else happens
    ensures !StateMatches(v, args) ==> o == Outcome(v, Raised(ValueError(StateMismatchMessage)), [])
    // then the provider's `error` parameter
    ensures StateMatches(v, args) && "error" in args ==>
              o == Outcome(v, AuthErrorPage(args, AppRootUri(bp, urlFor)), [])
    // the code is exchanged at most once, only after both checks, with the login's redirect URI
    ensures o.calls != [] ==>
              && StateMatches(v, args) && "error" !in args && "code" in args && args["code"] != ""
              && o.calls == [CodeCall(CodeRequestFor(args["code"], bp.config, urlFor))]
    // a missing `code` parameter is a KeyError; an empty one skips the exchange
    ensures StateMatches(v, args) && "error" !in args && "code" !in args ==>
              o == Outcome(v, Raised(KeyError("code")), [])
    ensures StateMatches(v, args) && "error" !in args && "code" in args && args["code"] == "" ==>
              o == Outcome(v, if v.user.Some? then Redirect(Found, AppRootUri(bp, urlFor))
                              else Raised(KeyError("user")), [])
    // once those checks pass and the code is non-empty, the code is exchanged exactly once, and
    // an `error` in the result, absent claims, or claims without read access each end the request
    ensures StateMatches(v, args) && "error" !in args && "code" in args && args["code"] != "" ==>
              var ex := Exchange(v, args["code"], bp.config, urlFor, provider);
              && o.calls == [CodeCall(CodeRequestFor(args["code"], bp.config, urlFor))]
              && ("error" in ex.response.fields ==>
                    o.response == AuthErrorPage(ex.response.fields, AppRootUri(bp, urlFor)))
              && ("error" !in ex.response.fields && ex.response.idTokenClaims.None? ==>
                    o.response == Raised(AttributeError("get")))
              && ("error" !in ex.response.fields && ex.response.idTokenClaims.Some?
                  && !HasReadAccess(ex.response.idTokenClaims.value) ==>
                    o.response == AuthErrorPage(AccessDeniedResult, AppRootUri(bp, urlFor)))
    // the session is written only on an accepted callback, and then with the exchanged claims
    ensures !CallbackAccepted(v, args, bp, urlFor, provider) ==> o.session == v
    ensures CallbackAccepted(v, args, bp, urlFor, provider) ==>
              var ex := Exchange(v, args["code"], bp.config, urlFor, provider);
              && o.session.state == v.state
              && o.session.user == ex.response.idTokenClaims
              && o.session.tokenCache == (if ex.cacheWrite.Some? then ex.cacheWrite else v.tokenCache)
              && o.response == Redirect(Found, AppRootUri(bp, urlFor))
    ensures UserAuthorised(v) ==> UserAuthorised(o.session)
  {
    var appRootUri := AppRootUri(bp, urlFor);
    if !StateMatches(v, args) then Outcome(v, Raised(ValueError(StateMismatchMessage)), [])
    else if "error" in args then Outcome(v, AuthErrorPage(args, appRootUri), [])
    else if "code" !in args then Outcome(v, Raised(KeyError("code")), [])
    else if args["code"] == "" then
      Outcome(v, if v.user.Some? then Redirect(Found, appRootUri) else Raised(KeyError("user")), [])
    else
      var loaded := LoadedCache(v);
      var req := CodeRequestFor(args["code"], bp.config, urlFor);
      var ex := provider.acquireTokenByAuthorizationCode(req, loaded);
      var calls := [CodeCall(req)];
      if "error" in ex.response.fields then Outcome(v, AuthErrorPage(ex.response.fields, appRootUri), calls)
      else match ex.response.idTokenClaims
        case None => Outcome(v, Raised(AttributeError("get")), calls)
        case Some(user) =>
          if !HasReadAccess(user) then Outcome(v, AuthErrorPage(AccessDeniedResult, appRootUri), calls)
          else
            var v' := SaveCacheOutcome(v.(user := Some(user)), ex.cacheWrite.Some?, ex.cacheWrite.GetOr(loaded));
            Outcome(v', Redirect(Found, appRootUri), calls)
  }

  /** `logout`: the whole session is cleared, then the browser goes to the provider's logout. */
  function LogoutOutcome(v: SessionView, bp: Blueprint, urlFor: UrlFor): (o: Outcome)
    ensures o.session == EmptySession && o.calls == []
    ensures o.response.Redirect? && o.response.status == Found
    ensures var p := BuildMsalApp(bp.config).authority + LogoutPath;
            && |p| <= |o.response.location| && o.response.location[..|p|] == p
            && o.response.location[|p|..] == urlFor(LogoutComplete, Some(bp.config.httpsScheme))
  {
    Outcome(EmptySession, Redirect(Found, BuildLogoutUrl(bp.config, None, urlFor)), [])
  }

  /** The session dict of one browser session, as far as the core uses it. */
  class Session {
    var state: Option<string>
    var user: Option<Claims>
    var tokenCache: Option<string>

    function View(): SessionView
      reads this
    {
      SessionView(state, user, tokenCache)
    }

    constructor()
      ensures View() == EmptySession
    {
      state, user, tokenCache := None, None, None;
    }

    /** `session.clear()`. */
    method Clear()
      modifies this
      ensures View() == EmptySession
    {
      state, user, tokenCache := None, None, None;
    }

    /** `_load_cache`. */
    method LoadCache() returns (cache: TokenCache)
      ensures fresh(cache)
      ensures cache.Serialize() == LoadedCache(View()) && !cache.hasStateChanged
    {
      cache := new TokenCache();
      if tokenCache.Some? && tokenCache.value != "" {
        cache.Deserialize(tokenCache.value);
      }
    }

    /** `_save_cache`. */
    method SaveCache(cache: TokenCache)
      modifies this
      ensures View() == SaveCacheOutcome(old(View()), cache.hasStateChanged, cache.Serialize())
    {
      if cache.hasStateChanged {
        tokenCache := Some(cache.Serialize());
      }
    }

    /** `_get_token_from_cache`. */
    method GetTokenFromCache(config: AuthConfig, scope: seq<string>, provider: Provider)
      returns (token: Option<Token>, calls: seq<ProviderCall>)
      modifies this
      ensures var o := TokenFromCacheOutcome(old(View()), config, scope, provider);
              View() == o.session && token == o.token && calls == o.calls
    {
      var cache := LoadCache();
      var cca := BuildMsalApp(config);
      var accounts := provider.getAccounts(cca, cache.Serialize());
      calls := [AccountsCall(cca)];
      if accounts != [] {
        var req := SilentRequest(cca, scope, accounts[0]);
        var result := provider.acquireTokenSilent(req, cache.Serialize());
        cache.Record(result.cacheWrite);
        calls := calls + [SilentCall(req)];
        SaveCache(cache);
        token := result.token;
      } else {
        token := None;
      }
    }

    /** The `login` route. */
    method Login(bp: Blueprint, urlFor: UrlFor, provider: Provider, uuid: UuidString) returns (resp: Response)
      modifies this
      ensures var o := LoginOutcome(old(View()), bp, urlFor, provider, uuid);
              View() == o.session && resp == o.response
    {
      var redirectUri := SigninRedirectUri(bp.config, urlFor);
      state := Some(uuid);
      var authUrl := provider.authorizationRequestUrl(
        BuildAuthRequest(bp.config, urlFor, Some(redirectUri), None, state, uuid));
      resp := Redirect(TemporaryRedirect, authUrl);
    }

    /** The `signin_oidc` route. */
    method SigninOidc(bp: Blueprint, args: map<string, string>, urlFor: UrlFor, provider: Provider)
      returns (resp: Response, calls: seq<ProviderCall>)
      modifies this
      ensures var o := SigninOutcome(old(View()), args, bp, urlFor, provider);
              View() == o.session && resp == o.response && calls == o.calls
    {
      calls := [];
      var appRootUri := AppRootUri(bp, urlFor);
      if Lookup(args, "state") != state {
        return Raised(ValueError(StateMismatchMessage)), calls;
      }
      if "error" in args {
        return AuthErrorPage(args, appRootUri), calls;
      }
      var redirectUri := SigninRedirectUri(bp.config, urlFor);
      if "code" !in args {
        return Raised(KeyError("code")), calls;
      }
      var code := args["code"];
      if code != "" {
        var cache := LoadCache();
        var req := CodeRequest(BuildMsalApp(bp.config), code, DefaultScopes, redirectUri);
        var result := provider.acquireTokenByAuthorizationCode(req, cache.Serialize());
        cache.Record(result.cacheWrite);
        calls := [CodeCall(req)];
        if "error" in result.response.fields {
          return AuthErrorPage(result.response.fields, appRootUri), calls;
        }
        if result.response.idTokenClaims.None? {
          // `_has_admin_access(None)` fails on `None.get`
          return Raised(AttributeError("get")), calls;
        }
        var claims := result.response.idTokenClaims.value;
        if !HasReadAccess(claims) {
          return AuthErrorPage(AccessDeniedResult, appRootUri), calls;
        }
        user := Some(claims);
        SaveCache(cache);
      }
      if user.None? {
        // `session['user']` in the log line
        return Raised(KeyError("user")), calls;
      }
      resp := Redirect(Found, appRootUri);
    }

    /** The `logout` route. */
    method Logout(bp: Blueprint, urlFor: UrlFor) returns (resp: Response)
      modifies this
      ensures var o := LogoutOutcome(old(View()), bp, urlFor);
              View() == o.session && resp == o.response
    {
      Clear();
      var logoutUrl := BuildLogoutUrl(bp.config, None, urlFor);
      resp := Redirect(Found, logoutUrl);
    }
  }
}
