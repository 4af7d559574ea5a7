/** Start-up validation of the agent's environment. The process
    environment is a map from variable name to value; an unset variable is
    an absent key. */
module Config {
  import opened Wrappers
  import opened Strings
  import opened Seqs

  type Env = map<string, string>

  const LivekitUrl: string := "LIVEKIT_URL"
  const LivekitApiKey: string := "LIVEKIT_API_KEY"
  const LivekitApiSecret: string := "LIVEKIT_API_SECRET"
  const AwsAccessKeyId: string := "AWS_ACCESS_KEY_ID"
  const AwsSecretAccessKey: string := "AWS_SECRET_ACCESS_KEY"
  const AwsDefaultRegion: string := "AWS_DEFAULT_REGION"

  /** The required variables, in the order they are checked and reported. */
  const RequiredVars: seq<string> :=
    [LivekitUrl, LivekitApiKey, LivekitApiSecret, AwsAccessKeyId, AwsSecretAccessKey, AwsDefaultRegion]

  const WsScheme: string := "ws://"
  const WssScheme: string := "wss://"
  const AwsKeyPrefix: string := "AKIA"

  const OpsApiUrl: string := "OPS_API_URL"
  const LogLevel: string := "LOG_LEVEL"
  const DefaultOpsApiUrl: string := "http://backend:8080"
  const DefaultLogLevel: string := "INFO"

  /** Why validation rejected the environment. */
  datatype ConfigError =
    | MissingVariables(names: seq<string>)
    | InvalidLivekitUrl(url: string)
    | InvalidAwsAccessKey

  const MissingHeader: string := "Missing required environment variables: "
  const MissingFooter: string := "\nPlease set these variables in your .env file or environment."
  const UrlErrorPrefix: string := "LIVEKIT_URL must start with ws:// or wss://, got: "
  const AwsKeyErrorText: string := "AWS_ACCESS_KEY_ID appears invalid (should start with 'AKIA')"

  /** The text `validate_env_vars` puts in the `ConfigError` it raises: the
      missing names joined by `", "` between a fixed heading and a fixed
      instruction line, or the offending URL after a fixed explanation. */
  function ErrorMessage(e: ConfigError): (msg: string)
    ensures e.MissingVariables? ==>
              && StartsWith(msg, MissingHeader) && EndsWith(msg, MissingFooter)
              && |msg| == |MissingHeader| + |Join(e.names, ", ")| + |MissingFooter|
              && msg[|MissingHeader|..|msg| - |MissingFooter|] == Join(e.names, ", ")
    ensures e.InvalidLivekitUrl? ==>
              StartsWith(msg, UrlErrorPrefix) && msg[|UrlErrorPrefix|..] == e.url
    ensures e.InvalidAwsAccessKey? ==> msg == AwsKeyErrorText
  {
    match e
    case MissingVariables(names) =>
      var joined := Join(names, ", ");
      var msg := MissingHeader + joined + MissingFooter;
      assert msg[..|MissingHeader|] == MissingHeader;
      assert msg[|msg| - |MissingFooter|..] == MissingFooter;
      assert msg[|MissingHeader|..|msg| - |MissingFooter|] == joined;
      msg
    case InvalidLivekitUrl(url) =>
      var msg := UrlErrorPrefix + url;
      assert msg[..|UrlErrorPrefix|] == UrlErrorPrefix;
      msg
    case InvalidAwsAccessKey =>
      AwsKeyErrorText
  }

  /** A variable counts as provided when it is set to a non-empty value. */
  predicate IsProvided(env: Env, name: string)
  {
    name in env && env[name] != ""
  }

  /** Every required variable is provided. */
  predicate AllProvided(env: Env)
    ensures AllProvided(env) ==> LivekitUrl in env && AwsAccessKeyId in env
  {
    assert LivekitUrl == RequiredVars[0] && AwsAccessKeyId == RequiredVars[3];
    forall i :: 0 <= i < |RequiredVars| ==> IsProvided(env, RequiredVars[i])
  }

  function IsMissingIn(env: Env): string -> bool
  {
    name => !IsProvided(env, name)
  }

  /** The required names that are not provided, in declared order. */
  function MissingVars(env: Env): seq<string>
  {
    Filter(RequiredVars, IsMissingIn(env))
  }

  /** The provided required variables with their values. */
  function ProvidedConfig(env: Env, names: seq<string>): map<string, string>
  {
    map name | name in names && IsProvided(env, name) :: env[name]
  }

  predicate IsWebSocketUrl(url: string)
  {
    StartsWith(url, WsScheme) || StartsWith(url, WssScheme)
  }

  /** `validate_env_vars`: every required variable must be provided; only
      then must the LiveKit URL use a WebSocket scheme; only then must the
      AWS access key id start with `AKIA`. */
  function ValidateEnvVars(env: Env): (r: Result<map<string, string>, ConfigError>)
    ensures r.Success? <==>
              && AllProvided(env)
              && IsWebSocketUrl(env[LivekitUrl])
              && StartsWith(env[AwsAccessKeyId], AwsKeyPrefix)
    ensures r.Success? ==> r.value.Keys == set i | 0 <= i < |RequiredVars| :: RequiredVars[i]
    ensures r.Success? ==> forall name :: name in r.value ==> name in env && r.value[name] == env[name]
    ensures (r.Failure? && r.error.MissingVariables?)
        <==> !AllProvided(env)
    ensures r.Failure? && r.error.MissingVariables? ==> r.error.names == MissingVars(env)
    ensures r.Failure? && r.error.MissingVariables? ==>
              forall name :: name in r.error.names <==> name in RequiredVars && !IsProvided(env, name)
    ensures r.Failure? && r.error.InvalidLivekitUrl? ==>
              LivekitUrl in env && r.error.url == env[LivekitUrl] && !IsWebSocketUrl(env[LivekitUrl])
    ensures r.Failure? && r.error.InvalidAwsAccessKey? ==>
              IsWebSocketUrl(env[LivekitUrl]) && !StartsWith(env[AwsAccessKeyId], AwsKeyPrefix)
  {
    var missing := MissingVars(env);
    FilterNone(RequiredVars, IsMissingIn(env));
    if missing != [] then
      Failure(MissingVariables(missing))
    else
      var config := ProvidedConfig(env, RequiredVars);
      assert LivekitUrl == RequiredVars[0] && AwsAccessKeyId == RequiredVars[3];
      var url := config[LivekitUrl];
      if !IsWebSocketUrl(url) then
        Failure(InvalidLivekitUrl(url))
      else if !StartsWith(config[AwsAccessKeyId], AwsKeyPrefix) then
        Failure(InvalidAwsAccessKey)
      else
        Success(config)
  }

  /** The missing names are listed in the order the variables are declared:
      the k-th reported name is the required variable at the k-th
      unprovided position. */
  lemma MissingVarsInDeclaredOrder(env: Env)
    ensures |MissingVars(env)| == |IndicesWhere(RequiredVars, IsMissingIn(env))|
    ensures forall k :: 0 <= k < |MissingVars(env)| ==>
              MissingVars(env)[k] == RequiredVars[IndicesWhere(RequiredVars, IsMissingIn(env))[k]]
  {
    FilterByIndices(RequiredVars, IsMissingIn(env));
  }

  /** The loop of `validate_env_vars`: one pass over `names` that collects
      the unprovided names in order and the provided values. */
  method CollectRequired(env: Env, names: seq<string>) returns (missing: seq<string>, config: map<string, string>)
    ensures missing == Filter(names, IsMissingIn(env))
    ensures config == ProvidedConfig(env, names)
  {
    missing := [];
    config := map[];
    var i := 0;
    while i < |names|
      invariant 0 <= i <= |names|
      invariant missing == Filter(names[..i], IsMissingIn(env))
      invariant config == ProvidedConfig(env, names[..i])
    {
      var name := names[i];
      assert names[..i + 1] == names[..i] + [name];
      FilterAppend(names[..i], [name], IsMissingIn(env));
      ProvidedConfigSnoc(env, names[..i], name);
      if !(name in env && env[name] != "") {
        missing := missing + [name];
      } else {
        config := config[name := env[name]];
      }
      i := i + 1;
    }
    assert names[..|names|] == names;
  }

  /** One more name adds its value to the provided configuration exactly
      when it is provided. */
  lemma ProvidedConfigSnoc(env: Env, names: seq<string>, name: string)
    ensures ProvidedConfig(env, names + [name])
         == if IsProvided(env, name) then ProvidedConfig(env, names)[name := env[name]]
            else ProvidedConfig(env, names)
  {
    var before := ProvidedConfig(env, names);
    var after := ProvidedConfig(env, names + [name]);
    if IsProvided(env, name) {
      assert after.Keys == before.Keys + {name};
    } else {
      assert after.Keys == before.Keys;
    }
  }

  /** `get_optional_config`: the environment's value when the variable is
      set (even to the empty string), otherwise the documented default. */
  function OptionalConfig(env: Env): (r: map<string, string>)
    ensures r.Keys == {OpsApiUrl, LogLevel}
    ensures OpsApiUrl in env ==> r[OpsApiUrl] == env[OpsApiUrl]
    ensures OpsApiUrl !in env ==> r[OpsApiUrl] == DefaultOpsApiUrl
    ensures LogLevel in env ==> r[LogLevel] == env[LogLevel]
    ensures LogLevel !in env ==> r[LogLevel] == DefaultLogLevel
  {
    map[OpsApiUrl := GetOr(env, OpsApiUrl, DefaultOpsApiUrl),
        LogLevel := GetOr(env, LogLevel, DefaultLogLevel)]
  }

  /** `os.getenv(name, default)`. */
  function GetOr(env: Env, name: string, default: string): string
  {
    if name in env then env[name] else default
  }
}
