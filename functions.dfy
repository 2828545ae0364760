/** `get_token` and `get`: a bearer token from the session's cache, and the GET request built
    with it. Sending the request is left to the caller. */
module Functions {
  import opened Wrappers
  import opened Config
  import opened External
  import opened Auth

  /** `scope or ['User.Read']`. */
  function DefaultScope(scope: Option<seq<string>>): (r: seq<string>)
    ensures r != []
    ensures scope.None? || scope.value == [] ==> r == DefaultScopes
    ensures scope.Some? && scope.value != [] ==> r == scope.value
  {
    OrSeq(scope, DefaultScopes)
  }

  /** The request `get` hands to `requests.get`. */
  datatype HttpRequest = HttpRequest(url: string, headers: map<string, string>, timeout: int)

  /** `{'Authorization': f'Bearer {token["access_token"]}', 'Accept': 'application/json'}`;
      subscripting a `None` token is a TypeError and a token without `access_token` a KeyError. */
  function BearerHeaders(token: Option<Token>): (r: Result<map<string, string>, Exception>)
    ensures token.None? ==> r == Failure(TypeError)
    ensures token.Some? && "access_token" !in token.value.fields ==> r == Failure(KeyError("access_token"))
    ensures token.Some? && "access_token" in token.value.fields ==>
              && r.Success?
              && r.value.Keys == {"Authorization", "Accept"}
              && r.value["Authorization"] == "Bearer " + token.value.fields["access_token"]
              && r.value["Accept"] == "application/json"
  {
    match token
    case None => Failure(TypeError)
    case Some(t) =>
      if "access_token" !in t.fields then Failure(KeyError("access_token"))
      else Success(map["Authorization" := "Bearer " + t.fields["access_token"], "Accept" := "application/json"])
  }

  /** A token lookup's result, with the session record it leaves and the provider calls made. */
  datatype TokenLookup = TokenLookup(session: SessionView, result: Result<Option<Token>, Exception>, calls: seq<ProviderCall>)

  /** `get_token`: the key check, then the cache lookup with the defaulted scope. */
  function GetTokenOutcome(v: SessionView, config: map<string, string>, scope: Option<seq<string>>, provider: Provider): (o: TokenLookup)
    ensures o.result.Failure? <==> exists k :: k in RequiredKeys && k !in config
    ensures o.result.Failure? ==>
              o == TokenLookup(v, Failure(MissingKeysError(RequiredKeys - config.Keys)), [])
    ensures o.result.Success? ==>
              var t := TokenFromCacheOutcome(v, ValidateConfig(config).value, DefaultScope(scope), provider);
              ValidateConfig(config).Success? && o == TokenLookup(t.session, Success(t.token), t.calls)
  {
    match ValidateConfig(config)
    case Failure(e) => TokenLookup(v, Failure(e), [])
    case Success(ac) =>
      var t := TokenFromCacheOutcome(v, ac, DefaultScope(scope), provider);
      TokenLookup(t.session, Success(t.token), t.calls)
  }

  /** The outcome of `get` up to the request it would send. */
  datatype GetOutcome = GetOutcome(session: SessionView, result: Result<HttpRequest, Exception>, calls: seq<ProviderCall>)

  /** `get`: the key check first, then `get_token` with the default scope, then the headers. */
  function GetRequestOutcome(v: SessionView, url: string, config: map<string, string>, timeout: int, provider: Provider): (o: GetOutcome)
    ensures (exists k :: k in RequiredKeys && k !in config) ==>
              o == GetOutcome(v, Failure(MissingKeysError(RequiredKeys - config.Keys)), [])
    ensures o.result.Success? ==>
              var t := GetTokenOutcome(v, config, None, provider);
              && t.result.Success?
              && o.session == t.session && o.calls == t.calls
              && BearerHeaders(t.result.value).Success?
              && o.result.value == HttpRequest(url, BearerHeaders(t.result.value).value, timeout)
    ensures RequiredKeys <= config.Keys ==>
              var t := GetTokenOutcome(v, config, None, provider);
              var h := BearerHeaders(t.result.value);
              && t.result.Success?
              && o.session == t.session && o.calls == t.calls
              && o.result == (if h.Success? then Success(HttpRequest(url, h.value, timeout)) else Failure(h.error))
  {
    match MissingRequiredKeys(config)
    case Some(missing) => GetOutcome(v, Failure(MissingKeysError(missing)), [])
    case None =>
      var t := GetTokenOutcome(v, config, None, provider);
      match t.result
      case Failure(e) => GetOutcome(t.session, Failure(e), t.calls)
      case Success(token) =>
        match BearerHeaders(token)
        case Failure(e) => GetOutcome(t.session, Failure(e), t.calls)
        case Success(headers) => GetOutcome(t.session, Success(HttpRequest(url, headers, timeout)), t.calls)
  }

  /** `get_token`. */
  method GetToken(session: Session, config: map<string, string>, scope: Option<seq<string>>, provider: Provider)
    returns (r: Result<Option<Token>, Exception>, calls: seq<ProviderCall>)
    modifies session
    ensures var o := GetTokenOutcome(old(session.View()), config, scope, provider);
            session.View() == o.session && r == o.result && calls == o.calls
  {
    var missing := MissingRequiredKeys(config);
    if missing.Some? {
      return Failure(MissingKeysError(missing.value)), [];
    }
    var authConfig := AuthConfig(config["TENANT"], config["CLIENT_ID"], config["CLIENT_SECRET"], config["HTTPS_SCHEME"]);
    var token;
    token, calls := session.GetTokenFromCache(authConfig, DefaultScope(scope), provider);
    r := Success(token);
  }

  /** `get`, up to `requests.get`: returns the request it would send. */
  method Get(session: Session, url: string, config: map<string, string>, timeout: int, provider: Provider)
    returns (r: Result<HttpRequest, Exception>, calls: seq<ProviderCall>)
    modifies session
    ensures var o := GetRequestOutcome(old(session.View()), url, config, timeout, provider);
            session.View() == o.session && r == o.result && calls == o.calls
  {
    var missing := MissingRequiredKeys(config);
    if missing.Some? {
      return Failure(MissingKeysError(missing.value)), [];
    }
    var token;
    token, calls := GetToken(session, config, None, provider);
    if token.Failure? {
      // `get_token` repeats the key check just passed, so it cannot fail
      assert false;
    }
    var headers := BearerHeaders(token.value);
    if headers.Failure? {
      return Failure(headers.error), calls;
    }
    r := Success(HttpRequest(url, headers.value, timeout));
  }
}
