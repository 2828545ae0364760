/** The required-key check that `construct_blueprint`, `get` and `get_token` each run on the auth config. */
module Config {
  import opened Wrappers

  const RequiredKeys: set<string> := {"TENANT", "CLIENT_ID", "CLIENT_SECRET", "HTTPS_SCHEME"}

  /** The validated auth config: the four required values (HTTPS_SCHEME is not checked to be
      `http` or `https`; it is passed on as given). */
  datatype AuthConfig = AuthConfig(tenant: string, clientId: string, clientSecret: string, httpsScheme: string)

  lemma {:induction false} SubsetCardinality<T>(a: set<T>, b: set<T>)
    requires a <= b
    ensures |a| <= |b|
    decreases a
  {
    if a != {} {
      var x :| x in a;
      SubsetCardinality(a - {x}, b - {x});
      assert a == (a - {x}) + {x};
      assert b == (b - {x}) + {x};
    }
  }

  /** The intersection with the config's keys has as many elements as `RequiredKeys`
      exactly when every required key is present. */
  lemma {:induction false} IntersectionFull(keys: set<string>)
    ensures |RequiredKeys * keys| == |RequiredKeys| <==> RequiredKeys <= keys
  {
    var both := RequiredKeys * keys;
    if !(RequiredKeys <= keys) {
      var k :| k in RequiredKeys && k !in keys;
      SubsetCardinality(both, RequiredKeys - {k});
      assert |RequiredKeys - {k}| == |RequiredKeys| - 1;
    } else {
      assert both == RequiredKeys;
    }
  }

  /** `required_keys - (required_keys & auth_config.keys())` when the sizes differ, else nothing:
      the missing keys are reported exactly when there are some, and they are exactly the
      required keys the config lacks. */
  function MissingRequiredKeys(config: map<string, string>): (r: Option<set<string>>)
    ensures r.Some? <==> exists k :: k in RequiredKeys && k !in config
    ensures r.Some? ==> r.value == RequiredKeys - config.Keys && r.value != {}
  {
    IntersectionFull(config.Keys);
    var intersection := RequiredKeys * config.Keys;
    if |intersection| != |RequiredKeys| then Some(RequiredKeys - intersection) else None
  }

  /** The check followed by the reads `auth_config['TENANT']` and so on that the handlers do. */
  function ValidateConfig(config: map<string, string>): (r: Result<AuthConfig, Exception>)
    ensures r.Failure? <==> !(RequiredKeys <= config.Keys)
    ensures r.Failure? ==> r.error == MissingKeysError(RequiredKeys - config.Keys)
    ensures r.Success? ==>
              && r.value.tenant == config["TENANT"]
              && r.value.clientId == config["CLIENT_ID"]
              && r.value.clientSecret == config["CLIENT_SECRET"]
              && r.value.httpsScheme == config["HTTPS_SCHEME"]
  {
    match MissingRequiredKeys(config)
    case Some(missing) => Failure(MissingKeysError(missing))
    case None =>
      Success(AuthConfig(config["TENANT"], config["CLIENT_ID"], config["CLIENT_SECRET"], config["HTTPS_SCHEME"]))
  }

  /** The state `construct_blueprint` closes its routes over. */
  datatype Blueprint = Blueprint(config: AuthConfig, applicationRootUri: Option<string>)

  /** `construct_blueprint`: fails with the missing keys before any route exists. */
  function ConstructBlueprint(config: map<string, string>, applicationRootUri: Option<string>): (r: Result<Blueprint, Exception>)
    ensures r.Failure? <==> exists k :: k in RequiredKeys && k !in config
    ensures r.Failure? ==> r.error == MissingKeysError(RequiredKeys - config.Keys)
    ensures r.Success? ==>
              && r.value.applicationRootUri == applicationRootUri
              && Success(r.value.config) == ValidateConfig(config)
  {
    match ValidateConfig(config)
    case Failure(e) => Failure(e)
    case Success(c) => Success(Blueprint(c, applicationRootUri))
  }
}
