/** What send_metrics.py promises about the credential cache and a run of `main()`,
    stated over the functions of SendMetrics that the methods of `Agent` are tied to. */
module SendMetricsProperties {
  import opened Results
  import opened Constants
  import opened Values
  import opened Configuration
  import opened SendMetrics

  /** Calls that belong to the Cognito federation. */
  predicate IsFederationCall(c: Call)
  {
    c.InitiateAuth? || c.GetId? || c.GetCredentialsForIdentity?
  }

  // ---------------------------------------------------------------------------
  // load_credentials

  /** A stored record whose Expiration is the aware instant `t` is returned, unchanged,
      exactly when `now < t`; at `t` and later the cache is absent: no grace window. */
  lemma ExpiryBoundary(members: map<string, Json>, now: int, t: int, offset: int)
    requires Expiration in members && members[Expiration] == JString(IsoStamp(Aware(t, offset)))
    ensures now < t ==> LoadCredentials(Present(Parsed(JObject(members))), now) == Ok(Some(JObject(members)))
    ensures t <= now ==> LoadCredentials(Present(Parsed(JObject(members))), now) == Ok(None)
  {
  }

  /** A missing file, text that is not UTF-8 or not JSON, an object without
      Expiration and an Expiration that `fromisoformat` rejects all read as "absent". */
  lemma CorruptCacheIsAbsent(file: FileState, now: int)
    requires || file == Missing
             || file == Present(Undecodable)
             || file == Present(NotJson)
             || (file.Present? && file.content.Parsed? && file.content.value.JObject? &&
                 (Expiration !in file.content.value.members ||
                  (file.content.value.members[Expiration].JString? && file.content.value.members[Expiration].text.Plain?)))
    ensures LoadCredentials(file, now) == Ok(None)
  {
  }

  /** Every other failure escapes `load_credentials`. */
  lemma OtherFailuresPropagate(now: int, v: Json)
    ensures LoadCredentials(Unopenable, now) == Err(OSError)
    ensures LoadCredentials(Present(TooDeep), now) == Err(RecursionError)
    ensures !v.JObject? ==> LoadCredentials(Present(Parsed(v)), now) == Err(TypeError(NotSubscriptableByKey))
    ensures v.JObject? && Expiration in v.members && !v.members[Expiration].JString? ==>
      LoadCredentials(Present(Parsed(v)), now) == Err(TypeError(NotAString))
    ensures v.JObject? && Expiration in v.members && v.members[Expiration].JString? &&
            v.members[Expiration].text.IsoStamp? && v.members[Expiration].text.stamp.Naive? ==>
      LoadCredentials(Present(Parsed(v)), now) == Err(TypeError(NaiveAwareComparison))
  {
  }

  /** A record saved by `save_credentials` and loaded while it is unexpired comes back
      equal; the content the file had before plays no part. This holds also when closing
      the file raised after the whole record was written, though the save then reported
      SaveCredentialsError. */
  lemma SaveLoadRoundTrip(before: FileState, c: SdkCredentials, outcome: WriteOutcome, now: int)
    requires outcome == Written || outcome == CloseFailed
    ensures var saved := AfterWrite(before, CredentialRecord(c), outcome);
      LoadCredentials(saved, now) == if now < c.expirationInstant then Ok(Some(CredentialRecord(c))) else Ok(None)
  {
    var rec := CredentialRecord(c);
    assert FromIsoFormat(rec.members[Expiration]) == Ok(Aware(c.expirationInstant, 0));
  }

  // ---------------------------------------------------------------------------
  // main: what happens before the paths split

  /** The cache is read first: when reading it raises, that exception ends the run,
      whatever the environment holds, before any call or change to the file. */
  lemma LoadFailureEndsRun(file: FileState, env: Env, now: int, stamp: int, sdk: Services)
    requires LoadCredentials(file, now).Err?
    ensures Main(file, env, now, stamp, sdk) == Run(file, [], Err(LoadCredentials(file, now).error))
  {
  }

  /** With any setting unset, `main` raises the ValueError of `Config()` and does nothing else. */
  lemma MissingSettingEndsRun(file: FileState, env: Env, now: int, stamp: int, sdk: Services)
    requires LoadCredentials(file, now).Ok?
    requires exists i :: 0 <= i < |Fields| && Fields[i].variable !in env
    ensures Main(file, env, now, stamp, sdk) == Run(file, [], Err(ValueError(MissingMessage(MissingNames(env)))))
  {
  }

  // ---------------------------------------------------------------------------
  // main: the cache-hit path

  /** On a cache hit no federation and no save happen, the file is untouched, and
      the CloudWatch client gets exactly the three cached secrets. */
  lemma CacheHitPublishesCachedSecrets(file: FileState, env: Env, now: int, stamp: int, sdk: Services)
    requires LoadCredentials(file, now).Ok? && LoadCredentials(file, now).value.Some?
    requires FromEnv(env).Ok?
    ensures var run := Main(file, env, now, stamp, sdk);
      && run.file == file
      && (forall i :: 0 <= i < |run.effects| ==> !IsFederationCall(run.effects[i]) && !run.effects[i].WriteCredentials?)
      && (SecretsOf(LoadCredentials(file, now).value.value).Ok? ==>
            var m := file.content.value.members;
            run.effects[0] == CreateCloudWatchClient(Secrets(m[AccessKeyId], m[SecretKey], m[SessionToken]), FromEnv(env).value.region))
  {
    var run := Main(file, env, now, stamp, sdk);
    var creds := LoadCredentials(file, now).value.value;
    var cfg := FromEnv(env).value;
    if SecretsOf(creds).Ok? {
      var p := Publish(SecretsOf(creds).value, cfg.cwNamespace, cfg.region, cfg.vol, stamp, sdk);
      assert run.effects == p.effects;
      assert forall i :: 0 <= i < |p.effects| ==> p.effects[i].CreateCloudWatchClient? || p.effects[i].GetDiskUsage? || p.effects[i].PutMetricData?;
    }
  }

  /** A cached record lacking one of the three secrets fails in `main` with a KeyError
      for the first missing one, in argument order, before any call. */
  lemma CacheHitWithoutSecretFails(file: FileState, env: Env, now: int, stamp: int, sdk: Services)
    requires LoadCredentials(file, now).Ok? && LoadCredentials(file, now).value.Some?
    requires FromEnv(env).Ok?
    requires SecretsOf(file.content.value).Err?
    ensures var m := file.content.value.members;
      Main(file, env, now, stamp, sdk) ==
        Run(file, [], Err(KeyError(if AccessKeyId !in m then AccessKeyId
                                   else if SecretKey !in m then SecretKey else SessionToken)))
  {
  }

  // ---------------------------------------------------------------------------
  // main: the miss path

  /** On a miss, `main` is its `else` branch. */
  lemma MissRefreshes(file: FileState, env: Env, now: int, stamp: int, sdk: Services)
    requires LoadCredentials(file, now) == Ok(None)
    requires FromEnv(env).Ok?
    ensures Main(file, env, now, stamp, sdk) == Refresh(file, FromEnv(env).value, stamp, sdk)
  {
  }

  /** On a miss `main` federates first; a federation failure ends the run with
      CognitoCredentialError, the file untouched. */
  lemma MissFederatesFirst(file: FileState, cfg: Config, stamp: int, sdk: Services)
    ensures var run := Refresh(file, cfg, stamp, sdk);
      var fed := Federate(cfg, sdk);
      && |fed.effects| <= |run.effects|
      && run.effects[..|fed.effects|] == fed.effects
      && run.effects[0] == AuthCall(cfg)
      && (fed.result.Err? ==> run == Run(file, fed.effects, Err(CognitoCredentialError)))
  {
    var run := Refresh(file, cfg, stamp, sdk);
    var fed := Federate(cfg, sdk);
    if fed.result.Ok? {
      var tail := run.effects[|fed.effects|..];
      assert run.effects == fed.effects + tail;
    }
  }

  /** If authentication fails, neither identity call is made and nothing is saved or published. */
  lemma AuthFailureStopsRun(file: FileState, cfg: Config, stamp: int, sdk: Services)
    requires sdk.initiateAuth(AuthCall(cfg)).None?
    ensures Refresh(file, cfg, stamp, sdk) == Run(file, [AuthCall(cfg)], Err(CognitoCredentialError))
  {
  }

  /** After a successful federation `main` saves, and only then publishes: when the
      save fails nothing is published; when it succeeds the file holds the new record,
      the save is the call right after the federation, and the client gets the new secrets. */
  lemma MissSavesBeforePublishing(file: FileState, cfg: Config, stamp: int, sdk: Services)
    requires Federate(cfg, sdk).result.Ok?
    ensures var run := Refresh(file, cfg, stamp, sdk);
      var fed := Federate(cfg, sdk);
      var rec := fed.result.value;
      var write := WriteCredentials(CredentialsFile, rec);
      && |run.effects| > |fed.effects|
      && run.effects[|fed.effects|] == write
      && (sdk.writeCredentials(write) != Written ==>
            && run.result == Err(SaveCredentialsError)
            && run.effects == fed.effects + [write]
            && (forall i :: 0 <= i < |run.effects| ==> !run.effects[i].CreateCloudWatchClient? && !run.effects[i].PutMetricData?))
      && (sdk.writeCredentials(write) == CloseFailed ==> run.file == Present(Parsed(rec)))
      && (sdk.writeCredentials(write) == Written ==>
            && run.file == Present(Parsed(rec))
            && run.effects[|fed.effects| + 1] == CreateCloudWatchClient(
                 Secrets(rec.members[AccessKeyId], rec.members[SecretKey], rec.members[SessionToken]),
                 cfg.region))
  {
    var run := Refresh(file, cfg, stamp, sdk);
    var fed := Federate(cfg, sdk);
    var rec := fed.result.value;
    var write := WriteCredentials(CredentialsFile, rec);
    if sdk.writeCredentials(write) != Written {
      assert forall i :: 0 <= i < |fed.effects| ==> IsFederationCall(fed.effects[i]);
      assert forall i :: 0 <= i < |run.effects| ==> IsFederationCall(run.effects[i]) || run.effects[i] == write;
    } else {
      var p := Publish(SecretsOf(rec).value, cfg.cwNamespace, cfg.region, cfg.vol, stamp, sdk);
      assert run.effects == fed.effects + [write] + p.effects;
      assert run.effects[|fed.effects| + 1] == p.effects[0];
    }
  }

  // ---------------------------------------------------------------------------
  // Two runs

  /** A missing cache, a complete environment and services that all succeed: the run
      succeeds, the file then holds the federated credentials, and the next run before
      they expire publishes with them without calling Cognito. */
  lemma FreshCredentialsAreReused(env: Env, now: int, later: int, stamp: int, sdk: Services)
    requires FromEnv(env).Ok?
    requires var cfg := FromEnv(env).value;
      && sdk.initiateAuth(AuthCall(cfg)).Some?
      && var idCall := GetId(cfg.region, cfg.identityPoolId, Logins(cfg.userPoolId, sdk.initiateAuth(AuthCall(cfg)).value));
         && sdk.getId(idCall).Some?
         && sdk.getCredentialsForIdentity(GetCredentialsForIdentity(cfg.region, sdk.getId(idCall).value, idCall.logins)).Some?
    requires sdk.writeCredentials(WriteCredentials(CredentialsFile, Federate(FromEnv(env).value, sdk).result.value)) == Written
    ensures var fed := Federate(FromEnv(env).value, sdk);
      var first := Main(Missing, env, now, stamp, sdk);
      && fed.result.Ok?
      && first.file == Present(Parsed(fed.result.value))
      && var c := sdk.getCredentialsForIdentity(fed.effects[2]).value;
         (later < c.expirationInstant ==>
           var second := Main(first.file, env, later, stamp, sdk);
           && second.file == first.file
           && (forall i :: 0 <= i < |second.effects| ==> !IsFederationCall(second.effects[i]))
           && second.effects[0] == CreateCloudWatchClient(
                Secrets(JString(Plain(c.accessKeyId)), JString(Plain(c.secretKey)), JString(Plain(c.sessionToken))),
                FromEnv(env).value.region))
  {
    var cfg := FromEnv(env).value;
    var fed := Federate(cfg, sdk);
    assert fed.result.Ok?;
    MissRefreshes(Missing, env, now, stamp, sdk);
    MissSavesBeforePublishing(Missing, cfg, stamp, sdk);
    var first := Main(Missing, env, now, stamp, sdk);
    var c := sdk.getCredentialsForIdentity(fed.effects[2]).value;
    if later < c.expirationInstant {
      SaveLoadRoundTrip(Missing, c, Written, later);
      CacheHitPublishesCachedSecrets(first.file, env, later, stamp, sdk);
    }
  }
}
