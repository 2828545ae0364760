/** Option and Result values, and the Python exceptions the core can raise. */
module Wrappers {

  /** A value that may be absent, as Python's `None` or a missing dict key. */
  datatype Option<+T> = None | Some(value: T) {

    /** The value, or `default` when absent (`d.get(k, default)`). */
    function GetOr(default: T): T {
      match this
      case Some(v) => v
      case None => default
    }
  }

  /** Either a value or the error that stopped the computation. */
  datatype Result<+R, +E> = Success(value: R) | Failure(error: E)

  /** `m.get(k)` on a dict of strings. */
  function Lookup(m: map<string, string>, k: string): (r: Option<string>)
    ensures r.Some? <==> k in m
    ensures r.Some? ==> r.value == m[k]
  {
    if k in m then Some(m[k]) else None
  }

  /** Python's `x or default` on an optional string: `None` and `""` are falsy. */
  function OrString(x: Option<string>, default: string): (r: string)
    ensures x.Some? && x.value != "" ==> r == x.value
    ensures x.None? || x.value == "" ==> r == default
  {
    if x.Some? && x.value != "" then x.value else default
  }

  /** Python's `xs or default` on an optional list: `None` and `[]` are falsy. */
  function OrSeq<T>(x: Option<seq<T>>, default: seq<T>): (r: seq<T>)
    ensures x.Some? && x.value != [] ==> r == x.value
    ensures x.None? || x.value == [] ==> r == default
  {
    if x.Some? && x.value != [] then x.value else default
  }

  /** The exceptions raised along the modelled paths. */
  datatype Exception =
    | ValueError(message: string)
      /** `ValueError('auth_config dict missing required keys: ' + ','.join(missing))`;
          the order in which Python joins the set is not modelled, so the keys are kept as a set. */
    | MissingKeysError(missing: set<string>)
    | KeyError(key: string)
    | AttributeError(name: string)
    | TypeError
}
