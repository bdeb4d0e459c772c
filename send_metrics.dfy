/** send_metrics.py: the credential cache, the Cognito federation, the metric
    publisher and the entry point that wires them together.

    The pure decisions (the expiry check of the cache, the records the agent builds)
    are functions; the effectful sequences (`get_cognito_credentials`,
    `save_credentials`, `put_metrics`, `main`) are methods of `Agent`, which holds the
    credential file and the trace of calls made to the outside world. Each method is
    tied to a function that gives its whole effect. */
module SendMetrics {
  import opened Results
  import opened Constants
  import opened Values
  import opened Configuration

  // ---------------------------------------------------------------------------
  // The credential file

  /** What `json.load` finds in an existing credential file. `Parsed` is text that
      `json.load` reads, nested within the interpreter's recursion limit. */
  datatype Content =
    | Undecodable          // bytes that are not UTF-8
    | NotJson              // text that is not JSON, an empty or truncated file among them
    | TooDeep              // text nested deeper than the recursion limit, JSON or not
    | Parsed(value: Json)

  /** The state of `creds.json`. */
  datatype FileState =
    | Missing              // open raises FileNotFoundError
    | Unopenable           // open raises another OSError (no permission, a directory, ...)
    | Present(content: Content)

  /** `open(CREDENTIALS_FILE, "r")` followed by `json.load`. */
  function ReadJson(file: FileState): Result<Json, Exception>
  {
    match file
    case Missing => Err(FileNotFoundError)
    case Unopenable => Err(OSError)
    case Present(Undecodable) => Err(UnicodeDecodeError)
    case Present(NotJson) => Err(JSONDecodeError)
    case Present(TooDeep) => Err(RecursionError)
    case Present(Parsed(v)) => Ok(v)
  }

  /** The exceptions listed in the `except` clause of `load_credentials`. */
  predicate Swallowed(e: Exception)
  {
    e.FileNotFoundError? || e.JSONDecodeError? || e.KeyError? || IsValueError(e)
  }

  /** A stored value is usable at `now`: an object whose Expiration is text that
      `fromisoformat` reads as an aware datetime strictly later than `now`. */
  predicate UnexpiredAt(v: Json, now: int)
  {
    && v.JObject?
    && Expiration in v.members
    && v.members[Expiration].JString?
    && v.members[Expiration].text.IsoStamp?
    && v.members[Expiration].text.stamp.Aware?
    && now < v.members[Expiration].text.stamp.instant
  }

  /** The body of the `try` in `load_credentials`, before any exception is caught. */
  function TryLoad(file: FileState, now: int): Result<Option<Json>, Exception>
  {
    match ReadJson(file)
    case Err(e) => Err(e)
    case Ok(creds) =>
      match Subscript(creds, Expiration)
      case Err(e) => Err(e)
      case Ok(expiration) =>
        match FromIsoFormat(expiration)
        case Err(e) => Err(e)
        case Ok(expirationDt) =>
          match EarlierThan(now, expirationDt)
          case Err(e) => Err(e)
          case Ok(earlier) => Ok(if earlier then Some(creds) else None)
  }

  /** `load_credentials(now_utc)`, `now_utc` being the aware instant `now`: the stored
      value when it is still usable, None when it is expired or one of the swallowed
      exceptions occurred, and any other exception raised. */
  function LoadCredentials(file: FileState, now: int): (r: Result<Option<Json>, Exception>)
    ensures r.Ok? && r.value.Some? <==> file.Present? && file.content.Parsed? && UnexpiredAt(file.content.value, now)
    ensures r.Ok? && r.value.Some? ==> Present(Parsed(r.value.value)) == file
    ensures r.Err? ==> r.error == OSError || r.error == RecursionError || r.error.TypeError?
  {
    match TryLoad(file, now)
    case Ok(found) => Ok(found)
    case Err(e) => if Swallowed(e) then Ok(None) else Err(e)
  }

  /** What happens to a write of the credential file. */
  datatype WriteOutcome =
    | Written              // the whole record reached the file
    | OpenFailed           // open(..., "w") raised: the file is as it was
    | Interrupted          // json.dump raised after open truncated the file
    | CloseFailed          // the whole record reached the file, then closing it raised

  /** The credential file after `save_credentials(creds, ...)` met `outcome`. */
  function AfterWrite(file: FileState, creds: Json, outcome: WriteOutcome): (f: FileState)
    ensures outcome == Written ==> ReadJson(f) == Ok(creds)
    ensures outcome == OpenFailed ==> f == file
    ensures outcome == Interrupted ==> ReadJson(f) == Err(JSONDecodeError)
    ensures outcome == CloseFailed ==> ReadJson(f) == Ok(creds)
  {
    match outcome
    case Written => Present(Parsed(creds))
    case OpenFailed => file
    case Interrupted => Present(NotJson)
    case CloseFailed => Present(Parsed(creds))
  }

  // ---------------------------------------------------------------------------
  // The outside world

  /** The three secrets `put_metrics` hands to the CloudWatch client, as `main` read them. */
  datatype Secrets = Secrets(accessKeyId: Json, secretKey: Json, sessionToken: Json)

  /** The dict `build_metric_data` returns: keys MetricName, Timestamp, Value, Unit. */
  datatype MetricDatum = MetricDatum(metricName: string, timestamp: DateTime, value: real, unit: string)

  /** One call the agent makes to something outside the process, with its arguments. */
  datatype Call =
    | InitiateAuth(authRegion: string, authFlow: string, authParameters: map<string, string>, clientId: string)
    | GetId(idRegion: string, identityPoolId: string, logins: map<string, string>)
    | GetCredentialsForIdentity(credRegion: string, identityId: string, credLogins: map<string, string>)
    | WriteCredentials(path: string, creds: Json)
    | CreateCloudWatchClient(keys: Secrets, cwRegion: string)
    | GetDiskUsage(vol: string)
    | PutMetricData(namespace: string, metricData: seq<MetricDatum>)

  /** Temporary credentials as Cognito's `get_credentials_for_identity` returns them;
      botocore parses the expiration as an aware datetime. */
  datatype SdkCredentials = SdkCredentials(
    accessKeyId: string, secretKey: string, sessionToken: string,
    expirationInstant: int, expirationOffset: int)

  /** How the outside world answers each call: a value, or None when the call (or
      reading the expected field of its response) raised. */
  datatype Services = Services(
    initiateAuth: Call -> Option<string>,                           // AuthenticationResult.IdToken
    getId: Call -> Option<string>,                                  // IdentityId
    getCredentialsForIdentity: Call -> Option<SdkCredentials>,      // Credentials
    writeCredentials: Call -> WriteOutcome,
    createCloudWatchClient: Call -> bool,
    getDiskUsage: Call -> Option<real>,                             // psutil.disk_usage(vol).percent
    putMetricData: Call -> bool)

  /** The calls an operation made, in order, and what it returned or raised. */
  datatype Step<T> = Step(effects: seq<Call>, result: Result<T, Exception>)

  // ---------------------------------------------------------------------------
  // get_cognito_credentials

  /** The `initiate_auth` call for `cfg`: the password flow for its user and client. */
  function AuthCall(cfg: Config): Call
  {
    InitiateAuth(cfg.region, UserPasswordAuth, map[KeyUsername := cfg.email, KeyPassword := cfg.password], cfg.clientId)
  }

  /** The `Logins` map of both identity calls. */
  function Logins(userPoolId: string, idToken: string): map<string, string>
  {
    map[CognitoProvider + userPoolId := idToken]
  }

  /** The dict `get_cognito_credentials` returns for the SDK's credentials. */
  function CredentialRecord(c: SdkCredentials): (r: Json)
    ensures r.JObject? && r.members.Keys == {AccessKeyId, SecretKey, SessionToken, Expiration}
    ensures r.members[AccessKeyId] == JString(Plain(c.accessKeyId))
    ensures r.members[SecretKey] == JString(Plain(c.secretKey))
    ensures r.members[SessionToken] == JString(Plain(c.sessionToken))
    ensures FromIsoFormat(r.members[Expiration]) == Ok(Aware(c.expirationInstant, 0))
  {
    JObject(map[
      AccessKeyId := JString(Plain(c.accessKeyId)),
      SecretKey := JString(Plain(c.secretKey)),
      SessionToken := JString(Plain(c.sessionToken)),
      Expiration := JString(IsoFormat(AsUtc(c.expirationInstant, c.expirationOffset)))])
  }

  /** `get_cognito_credentials(...)` for the settings `cfg`: authenticate, get an
      identity id, get its credentials, each call made only when the one before it
      succeeded, and every failure reported as CognitoCredentialError. */
  function Federate(cfg: Config, sdk: Services): (s: Step<Json>)
    ensures 1 <= |s.effects| <= 3 && s.effects[0] == AuthCall(cfg)
    ensures |s.effects| >= 2 <==> sdk.initiateAuth(AuthCall(cfg)).Some?
    ensures |s.effects| >= 2 ==>
      s.effects[1] == GetId(cfg.region, cfg.identityPoolId, Logins(cfg.userPoolId, sdk.initiateAuth(AuthCall(cfg)).value))
    ensures |s.effects| == 3 <==> |s.effects| >= 2 && sdk.getId(s.effects[1]).Some?
    ensures |s.effects| == 3 ==>
      s.effects[2] == GetCredentialsForIdentity(cfg.region, sdk.getId(s.effects[1]).value, s.effects[1].logins)
    ensures s.result.Ok? <==> |s.effects| == 3 && sdk.getCredentialsForIdentity(s.effects[2]).Some?
    ensures s.result.Ok? ==> s.result.value == CredentialRecord(sdk.getCredentialsForIdentity(s.effects[2]).value)
    ensures s.result.Err? ==> s.result.error == CognitoCredentialError
  {
    var auth := AuthCall(cfg);
    match sdk.initiateAuth(auth)
    case None => Step([auth], Err(CognitoCredentialError))
    case Some(idToken) =>
      var idCall := GetId(cfg.region, cfg.identityPoolId, Logins(cfg.userPoolId, idToken));
      match sdk.getId(idCall)
      case None => Step([auth, idCall], Err(CognitoCredentialError))
      case Some(identityId) =>
        var credCall := GetCredentialsForIdentity(cfg.region, identityId, Logins(cfg.userPoolId, idToken));
        match sdk.getCredentialsForIdentity(credCall)
        case None => Step([auth, idCall, credCall], Err(CognitoCredentialError))
        case Some(creds) => Step([auth, idCall, credCall], Ok(CredentialRecord(creds)))
  }

  // ---------------------------------------------------------------------------
  // put_metrics and build_metric_data

  /** `build_metric_data(metric_name, value, unit)`, the clock reading `datetime.now(pytz.UTC)` being `stamp`. */
  function BuildMetricData(metricName: string, value: real, unit: string, stamp: int): MetricDatum
  {
    MetricDatum(metricName, Aware(stamp, 0), value, unit)
  }

  /** `put_metrics(...)` with the collector `lambda: get_disk_usage(vol)`: create the
      client, read the disk, send one DiskUsage datum in Percent. */
  function Publish(keys: Secrets, namespace: string, region: string, vol: string, stamp: int, sdk: Services): (s: Step<()>)
    ensures 1 <= |s.effects| <= 3 && s.effects[0] == CreateCloudWatchClient(keys, region)
    ensures |s.effects| >= 2 <==> sdk.createCloudWatchClient(CreateCloudWatchClient(keys, region))
    ensures |s.effects| >= 2 ==> s.effects[1] == GetDiskUsage(vol)
    ensures |s.effects| == 3 <==> |s.effects| >= 2 && sdk.getDiskUsage(GetDiskUsage(vol)).Some?
    ensures |s.effects| == 3 ==> s.effects[2].PutMetricData? && s.effects[2].namespace == namespace
    ensures |s.effects| == 3 ==> |s.effects[2].metricData| == 1
    ensures |s.effects| == 3 ==> s.effects[2].metricData[0] == BuildMetricData(MetricNameDiskUsage, sdk.getDiskUsage(GetDiskUsage(vol)).value, UnitPercent, stamp)
    ensures forall i :: 0 <= i < |s.effects| - 1 ==> !s.effects[i].PutMetricData?
    ensures s.result.Ok? <==> |s.effects| == 3 && sdk.putMetricData(s.effects[2])
    ensures s.result.Err? ==>
      s.result.error == (if |s.effects| == 1 then CreateCognitoclientError
                         else if |s.effects| == 2 then GetDiskUsageError else SendMetricError)
  {
    var create := CreateCloudWatchClient(keys, region);
    if !sdk.createCloudWatchClient(create) then Step([create], Err(CreateCognitoclientError))
    else
      var collect := GetDiskUsage(vol);
      match sdk.getDiskUsage(collect)
      case None => Step([create, collect], Err(GetDiskUsageError))
      case Some(percent) =>
        var put := PutMetricData(namespace, [BuildMetricData(MetricNameDiskUsage, percent, UnitPercent, stamp)]);
        Step([create, collect, put], if sdk.putMetricData(put) then Ok(()) else Err(SendMetricError))
  }

  // ---------------------------------------------------------------------------
  // main

  /** `creds[ACCESS_KEY_ID]`, `creds[SECRET_KEY]`, `creds[SESSION_TOKEN]`, in that order,
      as `main` evaluates the arguments of `put_metrics`. */
  function SecretsOf(creds: Json): (r: Result<Secrets, Exception>)
    ensures r.Ok? <==> creds.JObject? && AccessKeyId in creds.members && SecretKey in creds.members && SessionToken in creds.members
    ensures r.Ok? ==> r.value == Secrets(creds.members[AccessKeyId], creds.members[SecretKey], creds.members[SessionToken])
    ensures r.Err? && creds.JObject? ==>
      r.error == KeyError(if AccessKeyId !in creds.members then AccessKeyId
                          else if SecretKey !in creds.members then SecretKey else SessionToken)
  {
    match Subscript(creds, AccessKeyId)
    case Err(e) => Err(e)
    case Ok(accessKeyId) =>
      match Subscript(creds, SecretKey)
      case Err(e) => Err(e)
      case Ok(secretKey) =>
        match Subscript(creds, SessionToken)
        case Err(e) => Err(e)
        case Ok(sessionToken) => Ok(Secrets(accessKeyId, secretKey, sessionToken))
  }

  /** A whole run: the credential file it leaves, its calls, and how it ended. */
  datatype Run = Run(file: FileState, effects: seq<Call>, result: Result<(), Exception>)

  /** `main()` for a credential file `file`, an environment `env`, the clock readings
      `now` (line 224) and `stamp` (inside `build_metric_data`), and the services `sdk`. */
  function Main(file: FileState, env: Env, now: int, stamp: int, sdk: Services): (run: Run)
    ensures run.file == file || (LoadCredentials(file, now) == Ok(None) && |run.effects| >= 4 && run.effects[3].WriteCredentials?)
    ensures run.result.Ok? ==> run.effects != [] && run.effects[|run.effects| - 1].PutMetricData?
    ensures run.result.Ok? ==> sdk.putMetricData(run.effects[|run.effects| - 1])
  {
    match LoadCredentials(file, now)
    case Err(e) => Run(file, [], Err(e))
    case Ok(cached) =>
      match FromEnv(env)
      case Err(missing) => Run(file, [], Err(ValueError(MissingMessage(missing))))
      case Ok(cfg) =>
        if cached.Some? then
          match SecretsOf(cached.value)
          case Err(e) => Run(file, [], Err(e))
          case Ok(keys) =>
            var p := Publish(keys, cfg.cwNamespace, cfg.region, cfg.vol, stamp, sdk);
            Run(file, p.effects, p.result)
        else Refresh(file, cfg, stamp, sdk)
  }

  /** The `else` branch of `main()`: federate, save the new record, then publish with it. */
  function Refresh(file: FileState, cfg: Config, stamp: int, sdk: Services): (run: Run)
    ensures run.file == file || (Federate(cfg, sdk).result.Ok? && |run.effects| >= 4 &&
                                 run.effects[3] == WriteCredentials(CredentialsFile, Federate(cfg, sdk).result.value))
    ensures run.result.Ok? ==> run.effects != [] && run.effects[|run.effects| - 1].PutMetricData?
    ensures run.result.Ok? ==> sdk.putMetricData(run.effects[|run.effects| - 1])
  {
    var fed := Federate(cfg, sdk);
    match fed.result
    case Err(e) => Run(file, fed.effects, Err(e))
    case Ok(creds) =>
      var write := WriteCredentials(CredentialsFile, creds);
      var outcome := sdk.writeCredentials(write);
      var saved := AfterWrite(file, creds, outcome);
      if outcome != Written then Run(saved, fed.effects + [write], Err(SaveCredentialsError))
      else
        // a federated record always holds the three keys
        var keys := SecretsOf(creds);
        assert keys.Ok?;
        var p := Publish(keys.value, cfg.cwNamespace, cfg.region, cfg.vol, stamp, sdk);
        assert (fed.effects + [write] + p.effects)[3] == write;
        Run(saved, fed.effects + [write] + p.effects, p.result)
  }

  // ---------------------------------------------------------------------------
  // The process: the credential file and what the agent has done so far

  class Agent {
    /** The credential file `creds.json`. */
    var file: FileState
    /** Every call made to the outside world, oldest first. A failure to create a
        Cognito client is recorded as the call that client would have made. */
    var trace: seq<Call>

    constructor (initial: FileState)
      ensures file == initial && trace == []
    {
      file := initial;
      trace := [];
    }

    /** `save_credentials(creds, CREDENTIALS_FILE, DEFAULT_ENCODING)`: replace the whole file. */
    method SaveCredentials(creds: Json, sdk: Services) returns (r: Result<(), Exception>)
      modifies this
      ensures trace == old(trace) + [WriteCredentials(CredentialsFile, creds)]
      ensures var outcome := sdk.writeCredentials(WriteCredentials(CredentialsFile, creds));
        && file == AfterWrite(old(file), creds, outcome)
        && r == if outcome == Written then Ok(()) else Err(SaveCredentialsError)
    {
      var write := WriteCredentials(CredentialsFile, creds);
      trace := trace + [write];
      match sdk.writeCredentials(write)
      case Written =>
        file := Present(Parsed(creds));
        r := Ok(());
      case OpenFailed =>
        r := Err(SaveCredentialsError);
      case Interrupted =>
        file := Present(NotJson);
        r := Err(SaveCredentialsError);
      case CloseFailed =>
        file := Present(Parsed(creds));
        r := Err(SaveCredentialsError);
    }

    /** `get_cognito_credentials(...)` with the settings `cfg`. */
    method GetCognitoCredentials(cfg: Config, sdk: Services) returns (r: Result<Json, Exception>)
      modifies this`trace
      ensures trace == old(trace) + Federate(cfg, sdk).effects
      ensures r == Federate(cfg, sdk).result
    {
      var auth := AuthCall(cfg);
      trace := trace + [auth];
      var idToken := sdk.initiateAuth(auth);
      if idToken.None? {
        return Err(CognitoCredentialError);
      }
      var idCall := GetId(cfg.region, cfg.identityPoolId, Logins(cfg.userPoolId, idToken.value));
      trace := trace + [idCall];
      var identityId := sdk.getId(idCall);
      if identityId.None? {
        return Err(CognitoCredentialError);
      }
      var credCall := GetCredentialsForIdentity(cfg.region, identityId.value, Logins(cfg.userPoolId, idToken.value));
      trace := trace + [credCall];
      var creds := sdk.getCredentialsForIdentity(credCall);
      if creds.None? {
        return Err(CognitoCredentialError);
      }
      r := Ok(CredentialRecord(creds.value));
    }

    /** `put_metrics(...)` with the collector `lambda: get_disk_usage(vol)`. */
    method PutMetrics(keys: Secrets, namespace: string, region: string, vol: string, stamp: int, sdk: Services)
      returns (r: Result<(), Exception>)
      modifies this`trace
      ensures trace == old(trace) + Publish(keys, namespace, region, vol, stamp, sdk).effects
      ensures r == Publish(keys, namespace, region, vol, stamp, sdk).result
    {
      var create := CreateCloudWatchClient(keys, region);
      trace := trace + [create];
      if !sdk.createCloudWatchClient(create) {
        return Err(CreateCognitoclientError);
      }
      var collect := GetDiskUsage(vol);
      trace := trace + [collect];
      var percent := sdk.getDiskUsage(collect);
      if percent.None? {
        return Err(GetDiskUsageError);
      }
      var metricData := BuildMetricData(MetricNameDiskUsage, percent.value, UnitPercent, stamp);
      var put := PutMetricData(namespace, [metricData]);
      trace := trace + [put];
      r := if sdk.putMetricData(put) then Ok(()) else Err(SendMetricError);
    }

    /** `main()` */
    method RunMain(env: Env, now: int, stamp: int, sdk: Services) returns (r: Result<(), Exception>)
      modifies this
      ensures var run := Main(old(file), env, now, stamp, sdk);
        file == run.file && trace == old(trace) + run.effects && r == run.result
    {
      var loaded := LoadCredentials(file, now);
      if loaded.Err? {
        return Err(loaded.error);
      }
      var config := FromEnv(env);
      if config.Err? {
        return Err(ValueError(MissingMessage(config.error)));
      }
      var cfg := config.value;
      if loaded.value.Some? {
        var keys := SecretsOf(loaded.value.value);
        if keys.Err? {
          return Err(keys.error);
        }
        r := PutMetrics(keys.value, cfg.cwNamespace, cfg.region, cfg.vol, stamp, sdk);
      } else {
        r := RenewAndPublish(cfg, stamp, sdk);
      }
    }

    /** The `else` branch of `main()`. */
    method RenewAndPublish(cfg: Config, stamp: int, sdk: Services) returns (r: Result<(), Exception>)
      modifies this
      ensures var run := Refresh(old(file), cfg, stamp, sdk);
        file == run.file && trace == old(trace) + run.effects && r == run.result
    {
      var creds := GetCognitoCredentials(cfg, sdk);
      if creds.Err? {
        return Err(creds.error);
      }
      var saved := SaveCredentials(creds.value, sdk);
      if saved.Err? {
        return Err(saved.error);
      }
      var keys := SecretsOf(creds.value);
      assert keys.Ok?;
      r := PutMetrics(keys.value, cfg.cwNamespace, cfg.region, cfg.vol, stamp, sdk);
    }
  }
}
