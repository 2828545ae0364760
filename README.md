# Entra ID sign-in core, modelled in Dafny

This project models the authentication and authorisation core of a Flask web application. The
application signs users in with the OpenID Connect authorization-code flow against Microsoft
Entra ID (through the MSAL library), and authorises them with the role claims in their identity
token. The core lives in `blueprints/auth`. It has five parts:

- the role predicates `_has_admin_access`, `_has_write_access` and `_has_read_access`;
- the required-key check on the auth config, which appears three times;
- the OIDC handlers `login`, `signin_oidc` and `logout`, which work over the per-browser session
  record (`state`, `user`, `token_cache`), together with the token-cache helpers;
- the URL builders `_get_authority` and `_build_logout_url`;
- the `login_required` guard, plus the `get_token` and `get` helpers.

Files, one module each:

- `wrappers.dfy`: Option and Result values, and the Python exceptions the core raises.
- `roles.dfy`: ASCII upper-casing, substring matching and the three role tiers.
- `config.dfy`: the required-key check, the validated config and `construct_blueprint`.
- `external.dfy`: the collaborators. This covers Flask's `url_for` and the MSAL client, modelled
  as values passed in (request records, answers, and a record of the provider calls made).
- `auth.dfy`: the URL builders, and spec functions for each handler that map the old session
  record to an `Outcome` (new record, response, provider calls). The `TokenCache` and `Session`
  classes have methods that do the work step by step, in source order, and are proved to
  produce exactly those outcomes.
- `decorators.dfy`: the guard.
- `functions.py`'s two helpers are in `functions.dfy`. Sending the HTTP request is left to the
  caller: `get` is modelled up to the request it would send.
- `flows.dfy`: properties that connect several operations.

Inputs that are not computed here are parameters:

- the UUID that `login` stores, a 36-character string;
- Flask's `url_for`, a function from endpoint and optional scheme to a URL;
- the MSAL client, a `Provider` value holding four functions.

The MSAL client's functions cover:

- building the authorization URL;
- exchanging a code;
- listing the cache's accounts;
- acquiring a token silently.

The last three take the cache's current serialised state. Listing the accounts returns only the
account list. The code exchange and the silent acquisition return their answer and, when they
changed the cache, the new serialised state.

Behaviour of the source that is easy to misread:

- `signin_oidc` checks `state` before it looks at the provider's `error` parameter
  (`blueprints/auth/__init__.py:63-66`).
- On a state mismatch it raises `ValueError`; it does not return an error result.
- The state check compares two optional values, so a callback without a `state` parameter
  passes it in a session where no login has stored one (`Flows.AbsentStatesMatch`).
- A missing `code` parameter raises `KeyError`. An empty `code` skips the exchange, and the
  handler then raises `KeyError` unless a user is already signed in.
- Exchange claims with no `id_token_claims` make the role check raise.
- `HTTPS_SCHEME` is passed on as given; nothing checks that it is `http` or `https`.
- `blueprints/auth/functions.py` declares `get_token` with `=> dict`, which is not valid Python.
  The model follows the evident intent: key check, default scope, cache lookup.

## Model

| member | source | states |
|---|---|---|
| `Roles.Upper` | blueprints/auth/__init__.py:161-169 | `role.upper()` on ASCII: the result has the same length, and each character is upper-cased in place |
| `Roles.Contains` | blueprints/auth/__init__.py:161-169 | Python's `w in s` on strings: the empty string and `s` itself occur in `s` |
| `Roles.ContainsIff` | blueprints/auth/__init__.py:161-169 | the substring test `w in s` holds iff `w` occurs in `s` at some offset |
| `Roles.UpperPreservesContains` | blueprints/auth/__init__.py:161-169 | a substring stays a substring after both strings are upper-cased, so tier matching ignores case |
| `Roles.AnyRoleContains` | blueprints/auth/__init__.py:161-169 | `any(word in role.upper() for role in roles)` is true iff some role's upper-cased form contains `word` |
| `Roles.HasAdminAccess` | blueprints/auth/__init__.py:168-169 | true iff some role, upper-cased, contains "ADMIN"; it needs a non-empty roles list, and absent `roles` counts as `[]` |
| `Roles.HasWriteAccess` | blueprints/auth/__init__.py:164-165 | admin access implies it; true iff admin access or some upper-cased role contains "WRITE" |
| `Roles.HasReadAccess` | blueprints/auth/__init__.py:160-161 | write access implies it; true iff write access or some upper-cased role contains "READ"; a claims dict with read access is non-empty |
| `Roles.NoRolesNoAccess` | blueprints/auth/__init__.py:160-169 | with `roles` absent or empty, all three tiers are false |
| `Roles.AdminInAnyCasing` | blueprints/auth/__init__.py:168-169 | a role that contains "admin" in any letter casing grants admin, write and read access |
| `Roles.SuperAdminRole` | blueprints/auth/__init__.py:168-169 | the role "SuperAdmin" grants all three tiers: matching is by substring, not exact |
| `Roles.SingleRoleTiers` | blueprints/auth/__init__.py:160-169 | with a single role, each tier is decided by which tier words occur in that role's upper-cased form |
| `Roles.WriteAccessRole` | blueprints/auth/__init__.py:160-169 | the single role "write-access" gives write and read access but not admin |
| `Roles.ViewerReadRole` | blueprints/auth/__init__.py:160-169 | the single role "viewer-read" gives read access but neither write nor admin |
| `Config.IntersectionFull` | blueprints/auth/__init__.py:30-31 | the intersection with the config's keys is as large as the required set iff every required key is present |
| `Config.MissingRequiredKeys` | blueprints/auth/__init__.py:24-33 | reports missing keys iff some required key is absent, and then reports exactly the set of absent required keys |
| `Config.ValidateConfig` | blueprints/auth/__init__.py:24-33 | fails iff a required key is missing, with exactly the missing keys; otherwise it yields the four configured values |
| `Config.ConstructBlueprint` | blueprints/auth/__init__.py:24-35 | fails with the missing-keys error iff one of TENANT, CLIENT_ID, CLIENT_SECRET, HTTPS_SCHEME is absent; otherwise it keeps the validated config and the root URI |
| `Auth.GetAuthority` | blueprints/auth/__init__.py:156-157 | the authority is "https://login.microsoftonline.com/" followed by exactly the tenant |
| `Auth.BuildMsalApp` | blueprints/auth/__init__.py:126-131 | the client carries the config's client id, the secret as credential, and the tenant's authority |
| `Auth.BuildLogoutUrl` | blueprints/auth/__init__.py:119-123 | the URL is the tenant's authority, then "/oauth2/v2.0/logout?post_logout_redirect_uri=", then the redirect; the redirect is `redirect_url` unless that is absent or empty, else the external logout-complete URL |
| `Auth.BuildAuthRequest` | blueprints/auth/__init__.py:111-116 | scopes, state and redirect URI are passed through when given and non-empty; otherwise scopes become ["User.Read"], state the fallback UUID, and the redirect URI the callback's external URL under the configured scheme; the prompt is `select_account`; scopes and state are never empty |
| `Auth.SigninRedirectUri` | blueprints/auth/__init__.py:44 | the redirect URI `login` passes explicitly (and the callback recomputes for the exchange) is the same one the auth request falls back to when none is given |
| `Auth.AppRootUri` | blueprints/auth/__init__.py:61 | the configured application root URI when it is given and non-empty, else the URL of the `index` route |
| `Auth.StateMatches` | blueprints/auth/__init__.py:63 | with a `state` parameter, it matches iff the session stores that same state; without one, iff the session stores none |
| `Auth.LoadedCache` | blueprints/auth/__init__.py:134-138 | the cache that is loaded holds the stored serialised cache when there is one, else it is empty |
| `Auth.SaveCacheOutcome` | blueprints/auth/__init__.py:141-143 | with the changed flag set, `token_cache` becomes the serialised cache; without it, the session is unchanged; `state` and `user` are never touched |
| `Auth.TokenFromCacheOutcome` | blueprints/auth/__init__.py:146-153 | with no accounts: no token and the session unchanged; otherwise one silent acquisition for `accounts[0]`, its token returned, and `token_cache` replaced only if that call changed the cache |
| `Auth.LoginOutcome` | blueprints/auth/__init__.py:42-52 | only `state` changes, and it becomes the fresh UUID; the response is a 307 redirect to the authorization URL whose state is that same UUID, with scope User.Read, prompt select_account and the callback's external URL |
| `Auth.SigninOutcome` | blueprints/auth/__init__.py:54-92 | a state mismatch raises first, with nothing called or written; then the `error` parameter renders the error page; the code is exchanged at most once, after both checks; a missing `code` raises KeyError; a non-empty code is exchanged exactly once with the callback's redirect URI, and then an `error` in the exchange result renders the error page with that result, absent `id_token_claims` raises AttributeError, and claims without read access render the access-denied page; the session changes only on an accepted callback, which stores exactly the exchanged claims, replaces `token_cache` only if the exchange changed the cache, and redirects to the root; a stored user keeps read access |
| `Auth.LogoutOutcome` | blueprints/auth/__init__.py:95-100 | the session is emptied, nothing is asked of the provider, and the redirect goes to the tenant's logout URL with the logout-complete URL as post-logout redirect |
| `Auth.TokenCache.constructor` | blueprints/auth/__init__.py:135 | a new cache is empty and unchanged |
| `Auth.TokenCache.Deserialize` | blueprints/auth/__init__.py:137 | the cache holds the given serialised state, and its changed flag is cleared |
| `Auth.TokenCache.Serialize` | blueprints/auth/__init__.py:143 | the serialised form is the cache's current state |
| `Auth.TokenCache.Record` | blueprints/auth/__init__.py:73-76 | a provider call that writes into the cache replaces its state and sets the changed flag; a call that does not write leaves both alone |
| `Auth.Session.constructor` | blueprints/auth/__init__.py:63 | a new session has no state, no user and no token cache |
| `Auth.Session.Clear` | blueprints/auth/__init__.py:98 | `session.clear()` leaves the session empty |
| `Auth.Session.LoadCache` | blueprints/auth/__init__.py:134-138 | returns a fresh cache whose state is `LoadedCache` of the session, with the changed flag clear |
| `Auth.Session.SaveCache` | blueprints/auth/__init__.py:141-143 | the session afterwards is `SaveCacheOutcome` of the session before, given the cache's flag and state |
| `Auth.Session.GetTokenFromCache` | blueprints/auth/__init__.py:146-153 | session, token and provider calls are exactly `TokenFromCacheOutcome` of the old session |
| `Auth.Session.Login` | blueprints/auth/__init__.py:42-52 | the new session and the response are exactly `LoginOutcome` of the old session |
| `Auth.Session.SigninOidc` | blueprints/auth/__init__.py:54-92 | the new session, the response and the provider calls are exactly `SigninOutcome` of the old session |
| `Auth.Session.Logout` | blueprints/auth/__init__.py:95-100 | the new session and the response are exactly `LogoutOutcome` of the old session |
| `Decorators.DecoratedFunction` | blueprints/auth/decorators.py:20-34 | redirects to the login route iff `session["user"]` is absent or an empty dict, and then does not run the handler; otherwise it returns exactly the handler's result on the same arguments; it takes the session as a value and cannot change it |
| `Decorators.SignedIn` | blueprints/auth/decorators.py:30 | a session with no `user`, or an empty claims dict, is not signed in; a user with read access is |
| `Decorators.GuardReadsOnlyUser` | blueprints/auth/decorators.py:30 | two sessions with the same `user` get the same answer from the guard |
| `Decorators.EmptyClaimsRedirect` | blueprints/auth/decorators.py:30-32 | an empty claims dict is falsy and leads to the login redirect |
| `Functions.DefaultScope` | blueprints/auth/functions.py:69 | an absent or empty scope becomes ["User.Read"]; a non-empty scope passes through unchanged |
| `Functions.BearerHeaders` | blueprints/auth/functions.py:33 | the headers are exactly `Authorization: Bearer <access_token>` and `Accept: application/json`; a `None` token is a TypeError, and a token without `access_token` is a KeyError |
| `Functions.GetTokenOutcome` | blueprints/auth/functions.py:58-71 | fails iff a required key is absent, reports exactly the missing keys, and then leaves the session alone and makes no provider call; otherwise it does the cache lookup with the defaulted scope |
| `Functions.GetRequestOutcome` | blueprints/auth/functions.py:21-36 | with a required key missing, fails before any token lookup; with all keys present, session and provider calls are those of the `get_token` lookup, and the result is the request with the URL, the timeout and the bearer headers when the headers can be built from its token, else the TypeError or KeyError that building them raises |
| `Functions.GetToken` | blueprints/auth/functions.py:39-71 | session, result and provider calls are exactly `GetTokenOutcome` of the old session |
| `Functions.Get` | blueprints/auth/functions.py:5-36 | session, result and provider calls are exactly `GetRequestOutcome` of the old session |
| `Flows.LogoutThenGuardRedirects` | blueprints/auth/decorators.py:30-32 | after `logout`, the guard redirects to login |
| `Flows.AcceptedCallbackThenGuardHandles` | blueprints/auth/__init__.py:87 | after an accepted callback, the guard runs the wrapped handler |
| `Flows.LoginThenMatchingCallback` | blueprints/auth/__init__.py:45-63 | a callback carrying the state that `login` stored passes the state check |
| `Flows.LaterLoginSupersedesState` | blueprints/auth/__init__.py:45-64 | after a second login, a callback with the first login's state raises, calls nothing and changes nothing |
| `Flows.AbsentStatesMatch` | blueprints/auth/__init__.py:63 | with no stored state and no `state` parameter, the state check passes and the code is exchanged |
| `Flows.HandlersKeepUserAuthorised` | blueprints/auth/__init__.py:83-87 | login, the callback, logout and the cache lookup all keep the invariant that a stored user has read access |
| `Flows.CacheRoundTrip` | blueprints/auth/__init__.py:134-143 | a cache saved with its changed flag set is what the next load deserialises |
| `Flows.LoginSigninLogout` | blueprints/auth/__init__.py:42-100 | from a fresh session: login, then an accepted matching callback, stores the user, and the guard lets the next request through; after logout the guard redirects |

## Left out

- MSAL internals are not modelled. This covers `get_authorization_request_url`, the code exchange,
  `get_accounts`, `acquire_token_silent` and token validation; they are parameters.
- The token cache's serialisation format is opaque. A cache is kept as its serialised string, and
  the empty cache is represented by the empty string.
- `uuid.uuid4()` is a parameter.
- Flask's `url_for`, `redirect`, `render_template` and the logger are not modelled. `url_for` is
  a parameter, a redirect is a `Redirect` response, and the rendered error page is
  `AuthErrorPage` with the result dict it would show.
- The `/ping` and `/logout-complete` routes are left out because they only render.
- `requests.get`, its timeout and `raise_for_status` are network I/O. `Functions.Get` returns the
  request it would send.
- Functions.Get: the default `timeout` of 180 seconds is not modelled; the caller always passes
  the timeout.
- The guard's `print` to the console is output only and is not modelled.
- Roles.Upper: ASCII letters only. Python's `str.upper()` also maps other characters (for example
  `'ı'` to `'I'`), so some non-ASCII role names match in Python but not in the model.
- Config.MissingRequiredKeys: the error text `','.join(missing_keys)` depends on Python's set
  iteration order. The model reports the missing keys as a set.
- The session dict's values are typed: `user` is claims with string attributes and an optional
  roles list, and `token_cache` is a string. Values of other Python types are not modelled.
- Concurrent requests in the same session are not modelled; they are a concurrency concern.
- `app.py` and the admin and userinfo routes are bootstrap and display code, applied through the
  guard.
