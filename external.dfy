/** What the core calls but does not define, passed in as values: Flask's `url_for` and the
    MSAL confidential client. Nothing here is implemented; the model only records what is asked
    of these collaborators and uses what they answer. */
module External {
  import opened Wrappers
  import opened Roles

  /** The endpoints the core builds URLs for. */
  datatype Endpoint = SigninOidc | LogoutComplete | Login | Index

  /** `url_for(endpoint, _external=True, _scheme=s)` for `Some(s)`, `url_for(endpoint)` for `None`. */
  type UrlFor = (Endpoint, Option<string>) -> string

  /** The arguments of `msal.ConfidentialClientApplication`. */
  datatype ClientApp = ClientApp(clientId: string, authority: string, clientCredential: string)

  datatype Account = Account(homeAccountId: string)

  /** The arguments of `get_authorization_request_url`. */
  datatype AuthRequest = AuthRequest(app: ClientApp, scopes: seq<string>, state: string, prompt: string, redirectUri: string)

  /** The arguments of `acquire_token_by_authorization_code`. */
  datatype CodeRequest = CodeRequest(app: ClientApp, code: string, scopes: seq<string>, redirectUri: string)

  /** The arguments of `acquire_token_silent`. */
  datatype SilentRequest = SilentRequest(app: ClientApp, scopes: seq<string>, account: Account)

  /** The dict `acquire_token_by_authorization_code` returns: its string entries (`error` among
      them on failure) and its `id_token_claims` entry, which may be absent. */
  datatype TokenResponse = TokenResponse(fields: map<string, string>, idTokenClaims: Option<Claims>)

  /** The dict `acquire_token_silent` returns. */
  datatype Token = Token(fields: map<string, string>)

  /** A provider call's answer, and the serialised state it left in the token cache when it changed it. */
  datatype CodeExchange = CodeExchange(response: TokenResponse, cacheWrite: Option<string>)
  datatype SilentAcquisition = SilentAcquisition(token: Option<Token>, cacheWrite: Option<string>)

  /** The MSAL client, as functions of the request and the token cache's current serialised state. */
  datatype Provider = Provider(
    authorizationRequestUrl: AuthRequest -> string,
    acquireTokenByAuthorizationCode: (CodeRequest, string) -> CodeExchange,
    getAccounts: (ClientApp, string) -> seq<Account>,
    acquireTokenSilent: (SilentRequest, string) -> SilentAcquisition)

  /** The provider calls that read or use the token cache, recorded in the order they are made. */
  datatype ProviderCall =
    | CodeCall(codeRequest: CodeRequest)
    | AccountsCall(app: ClientApp)
    | SilentCall(silentRequest: SilentRequest)
}
