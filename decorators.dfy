/** `login_required`: the guard that protected routes are wrapped in. */
module Decorators {
  import opened Wrappers
  import opened Roles
  import opened External
  import opened Auth

  /** What the decorated function returns: the login redirect, or the wrapped handler's result. */
  datatype GuardResult<R> = LoginRedirect(response: Response) | Handled(result: R)

  /** `session.get("user")` is truthy: present, and a non-empty claims dict. */
  predicate SignedIn(v: SessionView)
    ensures v.user.None? ==> !SignedIn(v)
    ensures v.user == Some(Claims(map[], None)) ==> !SignedIn(v)
    ensures v.user.Some? && HasReadAccess(v.user.value) ==> SignedIn(v)
  {
    v.user.Some? && Truthy(v.user.value)
  }

  /** `decorated_function(*args, **kwargs)` of `login_required(f)`: it reads the session's
      `user` and nothing else, and takes the session as a value, so it cannot change it. */
  function DecoratedFunction<A, R(==)>(f: A -> R, urlFor: UrlFor, session: SessionView, args: A): (r: GuardResult<R>)
    ensures r.LoginRedirect? <==> !SignedIn(session)
    ensures r.LoginRedirect? ==> r.response == Redirect(Found, urlFor(Login, None))
    ensures r.Handled? ==> r.result == f(args)
  {
    if !SignedIn(session) then LoginRedirect(Redirect(Found, urlFor(Login, None))) else Handled(f(args))
  }

  /** Only `user` decides: two sessions with the same user get the same answer. */
  lemma GuardReadsOnlyUser<A, R>(f: A -> R, urlFor: UrlFor, s1: SessionView, s2: SessionView, args: A)
    requires s1.user == s2.user
    ensures DecoratedFunction(f, urlFor, s1, args) == DecoratedFunction(f, urlFor, s2, args)
  {
  }

  /** An empty claims dict is falsy, so it redirects like an absent user. */
  lemma EmptyClaimsRedirect<A, R>(f: A -> R, urlFor: UrlFor, session: SessionView, args: A)
    requires session.user == Some(Claims(map[], None))
    ensures DecoratedFunction(f, urlFor, session, args).LoginRedirect?
  {
  }
}
