/** Properties that relate several operations of the core: the handlers in sequence, and the
    guard's answer after them. */
module Flows {
  import opened Wrappers
  import opened Roles
  import opened Config
  import opened External
  import opened Auth
  import opened Decorators

  /** After `logout`, the guard's next answer is the login redirect. */
  lemma LogoutThenGuardRedirects<A, R>(v: SessionView, bp: Blueprint, urlFor: UrlFor, f: A -> R, args: A)
    ensures DecoratedFunction(f, urlFor, LogoutOutcome(v, bp, urlFor).session, args).LoginRedirect?
  {
  }

  /** After an accepted callback, the guard runs the wrapped handler. */
  lemma AcceptedCallbackThenGuardHandles<A, R>(v: SessionView, args: map<string, string>, bp: Blueprint,
                                               urlFor: UrlFor, provider: Provider, f: A -> R, fargs: A)
    requires CallbackAccepted(v, args, bp, urlFor, provider)
    ensures DecoratedFunction(f, urlFor, SigninOutcome(v, args, bp, urlFor, provider).session, fargs) == Handled(f(fargs))
  {
  }

  /** The callback for a login passes the state check. */
  lemma LoginThenMatchingCallback(v: SessionView, bp: Blueprint, urlFor: UrlFor, provider: Provider,
                                  uuid: UuidString, args: map<string, string>)
    requires Lookup(args, "state") == Some(uuid)
    ensures var s := LoginOutcome(v, bp, urlFor, provider, uuid).session;
            SigninOutcome(s, args, bp, urlFor, provider).response != Raised(ValueError(StateMismatchMessage))
  {
  }

  /** A later login supersedes the state: the callback for the earlier one raises, asks
      nothing of the provider and leaves the session as the later login left it. */
  lemma LaterLoginSupersedesState(v: SessionView, bp: Blueprint, urlFor: UrlFor, provider: Provider,
                                  earlier: UuidString, later: UuidString, args: map<string, string>)
    requires Lookup(args, "state") == Some(earlier) && earlier != later
    ensures var s := LoginOutcome(LoginOutcome(v, bp, urlFor, provider, earlier).session, bp, urlFor, provider, later).session;
            SigninOutcome(s, args, bp, urlFor, provider) == Outcome(s, Raised(ValueError(StateMismatchMessage)), [])
  {
  }

  /** As written, the state check compares two optional values, so a callback without a `state`
      parameter passes it in a session where no login stored one; the later checks still apply. */
  lemma AbsentStatesMatch(v: SessionView, args: map<string, string>, bp: Blueprint, urlFor: UrlFor, provider: Provider)
    requires v.state.None? && "state" !in args
    requires "error" !in args && "code" in args && args["code"] != ""
    ensures SigninOutcome(v, args, bp, urlFor, provider).calls
              == [CodeCall(CodeRequestFor(args["code"], bp.config, urlFor))]
  {
  }

  /** Every handler keeps the invariant that a stored user has at least read access. */
  lemma HandlersKeepUserAuthorised(v: SessionView, bp: Blueprint, urlFor: UrlFor, provider: Provider,
                                   uuid: UuidString, args: map<string, string>, scope: seq<string>)
    requires UserAuthorised(v)
    ensures UserAuthorised(LoginOutcome(v, bp, urlFor, provider, uuid).session)
    ensures UserAuthorised(SigninOutcome(v, args, bp, urlFor, provider).session)
    ensures UserAuthorised(LogoutOutcome(v, bp, urlFor).session)
    ensures UserAuthorised(TokenFromCacheOutcome(v, bp.config, scope, provider).session)
  {
  }

  /** A cache saved with its changed flag set is what the next `_load_cache` deserialises. */
  lemma CacheRoundTrip(v: SessionView, data: string)
    ensures LoadedCache(SaveCacheOutcome(v, true, data)) == data
  {
  }

  /** The whole flow from a fresh session: login, the matching accepted callback, a guarded
      request that is handled, logout, and a guarded request that is redirected. */
  lemma LoginSigninLogout<A, R>(bp: Blueprint, urlFor: UrlFor, provider: Provider, uuid: UuidString,
                                args: map<string, string>, f: A -> R, fargs: A)
    requires Lookup(args, "state") == Some(uuid)
    requires CallbackAccepted(EmptySession.(state := Some(uuid)), args, bp, urlFor, provider)
    ensures var s1 := LoginOutcome(EmptySession, bp, urlFor, provider, uuid).session;
            var s2 := SigninOutcome(s1, args, bp, urlFor, provider).session;
            var s3 := LogoutOutcome(s2, bp, urlFor).session;
            && s2.user.Some? && UserAuthorised(s2)
            && DecoratedFunction(f, urlFor, s2, fargs) == Handled(f(fargs))
            && DecoratedFunction(f, urlFor, s3, fargs).LoginRedirect?
  {
  }
}
