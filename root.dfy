/**
 The configuration validator of the chef-load command line (`configFromViper`):
 it takes the record that viper merged from defaults, config file and flags,
 and either returns it with the derived settings filled in or fails.
 */
module Commands {
  import opened ChefLoad

  /** The errors `configFromViper` can return. */
  datatype Error =
    | SourceError(cause: string)   // whatever `viper.Unmarshal` failed with, passed on as it is
    | MissingEndpoint
    | MissingCredentials

  /** The text the command reports for each error. */
  function Message(e: Error): (m: string)
    ensures e.SourceError? ==> m == e.cause
    ensures e == MissingEndpoint ==> m == "You must set chef_server_url or data_collector_url or both"
    ensures e == MissingCredentials ==>
      m == "You must set client_name and client_key if chef_server_url is set"
  {
    match e
    case SourceError(cause) => cause
    case MissingEndpoint => "You must set chef_server_url or data_collector_url or both"
    case MissingCredentials => "You must set client_name and client_key if chef_server_url is set"
  }

  /** Either the finished record or an error; never both. */
  datatype Result = Success(value: Config) | Failure(error: Error)

  /** What `viper.Unmarshal` hands over: the merged record, or the error it failed with. */
  datatype Unmarshalled = Decoded(cfg: Config) | DecodeFailed(cause: string)

  /** The stand-in server URL used when only a data-collector URL is set. */
  const Placeholder := "https://chef.example.com/organizations/demo/"

  /** Go's `strings.HasSuffix`: `s` is some string followed by `suffix`. */
  predicate HasSuffix(s: string, suffix: string)
    ensures HasSuffix(s, suffix) <==> exists prefix :: s == prefix + suffix
  {
    if |suffix| <= |s| then
      assert s == s[..|s| - |suffix|] + s[|s| - |suffix|..];
      s[|s| - |suffix|..] == suffix
    else
      false
  }

  /** The chef-server URL with exactly one `/` added unless it already ends in one. */
  function WithTrailingSlash(url: string): (r: string)
    ensures HasSuffix(r, "/")
    ensures |r| == if HasSuffix(url, "/") then |url| else |url| + 1
    ensures r[..|url|] == url
  {
    if HasSuffix(url, "/") then url else url + "/"
  }

  /** The fields the validator never writes are the same in `a` and `b`. */
  predicate SameSettings(a: Config, b: Config)
  {
    a.(chefServerURL := b.chefServerURL, runChefClient := b.runChefClient) == b
  }

  /** A record in chef-server mode that the validator has already normalised. */
  predicate ChefServerReady(c: Config)
  {
    c.chefServerURL != "" && HasSuffix(c.chefServerURL, "/")
    && c.clientName != "" && c.clientKey != "" && c.runChefClient
  }

  /** A record in data-collector-only mode, after the placeholder was put in. */
  predicate DataCollectorReady(c: Config)
  {
    c.dataCollectorURL != "" && c.chefServerURL == Placeholder
  }

  /**
   The validator's meaning, stated on the merged record in one piece: the
   endpoint check first, then the credentials check in chef-server mode, and
   otherwise the normalised (or placeholder) record.
   */
  function Validate(cfg: Config): (r: Result)
    ensures r == Failure(MissingEndpoint) <==> cfg.chefServerURL == "" && cfg.dataCollectorURL == ""
    ensures r == Failure(MissingCredentials) <==>
      cfg.chefServerURL != "" && (cfg.clientName == "" || cfg.clientKey == "")
    ensures r.Failure? ==> r.error == MissingEndpoint || r.error == MissingCredentials
    ensures r.Success? ==> SameSettings(cfg, r.value)
    ensures r.Success? ==> r.value.chefServerURL != "" && HasSuffix(r.value.chefServerURL, "/")
    ensures r.Success? && cfg.chefServerURL != "" ==>
      r.value.runChefClient && r.value.chefServerURL == WithTrailingSlash(cfg.chefServerURL)
    ensures r.Success? && cfg.chefServerURL == "" ==>
      r.value.chefServerURL == Placeholder && r.value.runChefClient == cfg.runChefClient
  {
    if cfg.chefServerURL == "" && cfg.dataCollectorURL == "" then
      Failure(MissingEndpoint)
    else if cfg.chefServerURL == "" then
      Success(cfg.(chefServerURL := Placeholder))
    else if cfg.clientName == "" || cfg.clientKey == "" then
      Failure(MissingCredentials)
    else
      Success(cfg.(chefServerURL := WithTrailingSlash(cfg.chefServerURL), runChefClient := true))
  }

  /**
   `configFromViper`: unmarshal, then the checks and updates in the order the
   command runs them, each failure returning at once.
   */
  method ConfigFromViper(u: Unmarshalled) returns (r: Result)
    ensures u.DecodeFailed? ==> r == Failure(SourceError(u.cause))
    ensures u.Decoded? ==> r == Validate(u.cfg)
  {
    if u.DecodeFailed? {
      return Failure(SourceError(u.cause));
    }
    var cfg := u.cfg;

    if cfg.chefServerURL == "" && cfg.dataCollectorURL == "" {
      return Failure(MissingEndpoint);
    }

    if cfg.chefServerURL != "" {
      cfg := cfg.(runChefClient := true);
      if !HasSuffix(cfg.chefServerURL, "/") {
        cfg := cfg.(chefServerURL := cfg.chefServerURL + "/");
      }
      if cfg.clientName == "" || cfg.clientKey == "" {
        return Failure(MissingCredentials);
      }
    }

    if cfg.dataCollectorURL != "" && cfg.chefServerURL == "" {
      cfg := cfg.(chefServerURL := Placeholder);
    }

    return Success(cfg);
  }

  /** A chef-server-mode result is a fixed point: validating it again returns it unchanged. */
  lemma ChefServerFixedPoint(cfg: Config)
    requires cfg.chefServerURL != "" && Validate(cfg).Success?
    ensures Validate(Validate(cfg).value) == Validate(cfg)
  {
  }

  /**
   The records the validator can return are exactly the ready chef-server
   records and the ready data-collector records.
   */
  lemma ValidatorRange(out: Config)
    ensures (exists cfg :: Validate(cfg) == Success(out)) <==> ChefServerReady(out) || DataCollectorReady(out)
  {
    if ChefServerReady(out) {
      assert Validate(out) == Success(out);
    } else if DataCollectorReady(out) {
      var cfg := out.(chefServerURL := "");
      assert Validate(cfg) == Success(out);
    }
  }

  /**
   Data-collector mode is not a fixed point: a second pass sees the
   placeholder as a chef-server URL, so it demands credentials and switches
   chef-client runs on.
   */
  lemma DataCollectorSecondPass(cfg: Config)
    requires cfg.chefServerURL == "" && cfg.dataCollectorURL != ""
    ensures Validate(cfg).Success?
    ensures cfg.clientName == "" || cfg.clientKey == "" ==>
      Validate(Validate(cfg).value) == Failure(MissingCredentials)
    ensures cfg.clientName != "" && cfg.clientKey != "" ==>
      Validate(Validate(cfg).value) == Success(Validate(cfg).value.(runChefClient := true))
  {
  }

  /**
   A failed validation reports the endpoint text when neither URL is set and
   the credentials text otherwise.
   */
  lemma ValidationErrorText(cfg: Config)
    requires Validate(cfg).Failure?
    ensures Message(Validate(cfg).error) ==
      if cfg.chefServerURL == "" && cfg.dataCollectorURL == ""
      then "You must set chef_server_url or data_collector_url or both"
      else "You must set client_name and client_key if chef_server_url is set"
  {
  }

  /** With no config file and no flags set, neither endpoint is set and the command fails. */
  lemma DefaultsOnlyRejected(base: Config)
    ensures Validate(FlagDefaults(base)) == Failure(MissingEndpoint)
  {
  }
}
