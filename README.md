# Disk-usage metric agent: credential cache, Cognito federation, CloudWatch publishing

The agent runs once per invocation. It reads its eight settings from the environment
(`Config`). It loads temporary AWS credentials cached in `creds.json` and uses them if
they have not expired. When the cache is absent or expired, it authenticates against
an Amazon Cognito user pool, trades the identity token for temporary credentials
through a Cognito identity pool, and overwrites the cache with them. Either way it
then sends one `DiskUsage` metric, in `Percent`, to CloudWatch.

The project has six modules:

- `Results`: the Option and Result wrappers.
- `Constants`: the string literals of `constants.py` that the core uses.
- `Values`: the Python values the cache handles.
  - `DateTime` is naive or aware, with integer instants.
  - `Json` is what `json.load` returns, with each string that `fromisoformat` accepts represented by the datetime it denotes.
  - `Text` classifies a JSON string by what `datetime.fromisoformat` makes of it: text that it accepts, for the datetime that text denotes, or any other text.
  - `Exception` lists the exceptions raised or caught.
  - It also models `v[key]`, `fromisoformat` and the aware/naive comparison.
- `Configuration`: `Config.__init__` of `config.py`, as a function from an environment map to a `Config` or the ordered list of unset attribute names.
- `SendMetrics`: `send_metrics.py`.
  - The pure decisions are functions: the cache check, the record built from the SDK's credentials, and the metric datum.
  - Each effectful sequence is a function that gives its whole effect: the calls made, in order, and the result or exception.
  - `class Agent` holds the credential file and the trace of calls made so far. Its methods are the source's effectful functions. Each method is proved to update `file` and `trace` exactly as its function says.
- `SendMetricsProperties`: lemmas about the cache, the two paths of `main`, and a run followed by a second run that reuses the cache.

The "outside world" is a `Services` value: one function per kind of call.

- The three Cognito calls, the disk-usage reading, client creation and `put_metric_data` answer with a value or a failure.
- Writing the file reports one of four outcomes:
  - `Written`;
  - `OpenFailed`, where the file is unchanged;
  - `Interrupted`, where the file was truncated and left holding text that is not JSON;
  - `CloseFailed`, where the whole record reached the file but closing it raised, so the save reports SaveCredentialsError while the file holds the new record.

The Python built-ins the core calls are plain definitions, each the case analysis of the built-in it stands for, with no contract of its own:

- `Values.Subscript`: `v[key]` on a JSON value (send_metrics.py:207, :229-231). An object lacking the key raises KeyError; any other value raises TypeError.
- `Values.FromIsoFormat`: `datetime.fromisoformat` (send_metrics.py:208). It gives the datetime that accepted text denotes, raises ValueError on other text, and raises TypeError on a non-string.
- `Values.EarlierThan`: `<` between the aware `now` and a datetime (send_metrics.py:209). A naive operand raises TypeError.
- `SendMetrics.ReadJson`: `open` followed by `json.load` (send_metrics.py:205-206).
- `SendMetrics.BuildMetricData`: the dict of `build_metric_data` (send_metrics.py:57-81). Its shape is stated by the contract of `Publish`.
- `Values.IsoFormat`: `isoformat()` on the UTC expiration (send_metrics.py:172), giving text that `fromisoformat` accepts.
- `Configuration.Unset`: the comprehension `[k for k, v in ... if v is None]` (config.py:50).
- `Configuration.Join`: `', '.join` (config.py:52).
- `Configuration.MissingMessage`: the f-string of the ValueError (config.py:52).
- `Configuration.GetEnv`: `os.getenv` (config.py:42-49).
- `Configuration.Assigned`: `self.__dict__.items()` after the eight assignments (config.py:42-50).
- `Configuration.Keys`: the keys of those items.

Clock readings are parameters: `now` for line 224 and `stamp` for the timestamp inside `build_metric_data`.

## Model

| member | source | states |
|---|---|---|
| Values.AsUtc | send_metrics.py:171 | `astimezone(timezone.utc)` shows the datetime at offset zero, and every later comparison with an aware `now` gives the same answer as for the datetime before normalising. |
| Values.ComparisonIgnoresOffset | send_metrics.py:209 | Comparing `now` with an aware datetime depends only on its instant, not on the offset it is shown with. |
| SendMetrics.LoadCredentials | send_metrics.py:203-213 | Gives the stored value exactly when the file holds a JSON object whose Expiration is text that `fromisoformat` accepts, denoting an aware datetime strictly later than `now`. That value is returned unchanged. The only exceptions that escape are OSError, the RecursionError of `json.load` on text nested too deeply, and TypeError. |
| SendMetricsProperties.ExpiryBoundary | send_metrics.py:208-213 | A record expiring at `t` is returned before `t` and is absent at `t` and after: there is no grace window. |
| SendMetricsProperties.CorruptCacheIsAbsent | send_metrics.py:204-213 | A missing file, bytes that are not UTF-8, text that `json.load` rejects with JSONDecodeError, a missing Expiration or a non-ISO Expiration all read as None, never as an exception. |
| SendMetricsProperties.OtherFailuresPropagate | send_metrics.py:205-211 | These raise out of `load_credentials`: an open failure other than FileNotFoundError, text nested deeper than the recursion limit (RecursionError, valid JSON or not), a JSON value that is not an object, a non-string Expiration, and a naive Expiration. |
| SendMetrics.AfterWrite | send_metrics.py:196-200 | A completed write leaves exactly `creds` in the file, whatever it held before. So does one whose close raised. A failed open leaves the file unchanged. An interrupted dump leaves text that is not JSON. |
| SendMetrics.Agent.SaveCredentials | send_metrics.py:183-200 | Appends one write of `creds.json` to the trace and sets the file to `AfterWrite` of the outcome. Returns success exactly when the write completed, otherwise SaveCredentialsError. |
| SendMetricsProperties.SaveLoadRoundTrip | send_metrics.py:171-178 | A federated record whose whole text reached the file loads back equal before its expiry and as None from its expiry on. This includes a save that then raised on close. |
| SendMetrics.CredentialRecord | send_metrics.py:171-178 | The returned dict has exactly the four keys. The three secrets are copied, and Expiration parses back to the same instant in UTC. |
| SendMetrics.Federate | send_metrics.py:128-180 | Gives the call sequence of `get_cognito_credentials`, which holds up to three calls in a fixed order. Authentication uses the password flow. `get_id` is made only after authentication succeeds, and `get_credentials_for_identity` only after `get_id` succeeds. Both use the login map `{COGNITO_PROVIDER + user_pool_id: id_token}`. The result is the record of the returned credentials, and any failure is CognitoCredentialError. |
| SendMetrics.Agent.GetCognitoCredentials | send_metrics.py:128-180 | Appends exactly the calls of `Federate` to the trace and returns its result. |
| SendMetrics.Publish | send_metrics.py:57-125 | Client creation comes first, then the disk reading, then one `put_metric_data` call, each made only when the step before it succeeded. The call sends exactly one `build_metric_data` record, named DiskUsage, in Percent, holding the reading and stamped with the clock reading in UTC, to the namespace. There is no put before the last call. Success happens exactly when the put succeeds. The exception raised depends on the step that failed: CreateCognitoclientError, GetDiskUsageError or SendMetricError. |
| SendMetrics.Agent.PutMetrics | send_metrics.py:84-125 | Appends exactly the calls of `Publish` to the trace and returns its result. |
| SendMetrics.SecretsOf | send_metrics.py:229-231 | Reading the three secrets succeeds exactly when the object holds all three, and returns them. Otherwise it raises KeyError for the first one missing, in argument order. |
| SendMetrics.Main | send_metrics.py:216-257 | A run changes the file only on a miss, and then the fourth call is the write. A successful run ends with a `put_metric_data` call that succeeded. |
| SendMetrics.Refresh | send_metrics.py:236-257 | The miss path changes the file only after a successful federation, and then writes exactly the federated record as the fourth call. A successful run ends with a `put_metric_data` call that succeeded. |
| SendMetrics.Agent.RunMain | send_metrics.py:216-257 | Leaves the file and appends the trace exactly as `Main` says, and returns its result. |
| SendMetrics.Agent.RenewAndPublish | send_metrics.py:236-257 | Leaves the file and appends the trace exactly as `Refresh` says, and returns its result. |
| SendMetricsProperties.LoadFailureEndsRun | send_metrics.py:224-226 | The cache is read before the settings: an exception raised while loading ends the run with no call and no change, whatever the environment holds. |
| SendMetricsProperties.MissingSettingEndsRun | send_metrics.py:226 | An unset variable ends the run with the ValueError of `Config()`, before any call. |
| SendMetricsProperties.CacheHitPublishesCachedSecrets | send_metrics.py:227-235 | On a hit there is no federation call and no write, the file is untouched, and the CloudWatch client receives exactly the three cached secrets. |
| SendMetricsProperties.CacheHitWithoutSecretFails | send_metrics.py:229-231 | A cached record lacking any of the three secrets fails with a KeyError for the first missing one, in argument order, before any call and with the file untouched. |
| SendMetricsProperties.MissRefreshes | send_metrics.py:236-257 | A miss with complete settings takes the `else` branch. |
| SendMetricsProperties.MissFederatesFirst | send_metrics.py:237-244 | The miss path starts with the federation calls. If federation fails, the run ends with CognitoCredentialError and the file untouched. |
| SendMetricsProperties.AuthFailureStopsRun | send_metrics.py:152-160 | When authentication fails, the run records only the authentication call, makes neither identity call, and raises CognitoCredentialError. |
| SendMetricsProperties.MissSavesBeforePublishing | send_metrics.py:245-257 | The write comes right after the federation calls. If the write fails, the run raises SaveCredentialsError and makes no CloudWatch call. If closing raised after the whole record was written, the run still fails but the file holds the new record. If it succeeds, the file holds the new record and the client receives its secrets. |
| SendMetricsProperties.FreshCredentialsAreReused | send_metrics.py:216-257 | After a successful run from an empty cache, a later run before the expiry leaves the file as it is, makes no Cognito call, and uses the federated secrets. |
| Configuration.UnsetEmpty | config.py:50-51 | The list of missing names is empty exactly when every attribute has a value. |
| Configuration.UnsetMembership | config.py:50 | A name is listed exactly when some attribute of that name is None. |
| Configuration.UnsetKeepsOrder | config.py:50 | The listed names keep the order of the attributes. |
| Configuration.FromEnv | config.py:41-52 | Construction succeeds exactly when all eight variables are set. Each attribute then equals its variable verbatim, and there are no other attributes. Otherwise the result is the non-empty list of missing names. |
| Configuration.MissingNamesUnsetVariables | config.py:42-52 | A name is reported exactly when it is the attribute name, not the variable name, of an unset variable. The reported names follow assignment order. |
| Configuration.TwoMissingNames | config.py:42-50 | With USER_POOL_ID and VOL unset, the missing list is `["user_pool_id", "vol"]`. |
| Configuration.TwoMissingVariables | config.py:50-52 | ... and the ValueError message is `Missing environment variables: user_pool_id, vol`. |
| Configuration.EmptyValueIsAccepted | config.py:42-50 | A variable set to the empty string is accepted and taken verbatim. |

## Left out

- boto3: each client and call is an abstract oracle in `Services`. All failures inside the `try` of `get_cognito_credentials` raise the same CognitoCredentialError, and each is folded into the failure of one oracle:
  - a failure to create the `cognito-idp` client (line 152) is the `initiateAuth` oracle answering None, and a failure to create the `cognito-identity` client (line 162) is the `getId` oracle answering None. The trace then records an `InitiateAuth` or `GetId` call that the program never made: such a failure is recorded as the call it comes before;
  - a response lacking `AuthenticationResult.IdToken` or `IdentityId` is the failure of `initiateAuth` or `getId`;
  - a response lacking `Credentials`, a `Credentials` dict lacking one of `AccessKeyId`, `SecretKey`, `SessionToken` or `Expiration`, and an `Expiration` without `astimezone` (lines 170-176) are all the `getCredentialsForIdentity` oracle answering None, since `SdkCredentials` always holds all five fields.
- `psutil.disk_usage(vol).percent` is an opaque `real` supplied by the `getDiskUsage` oracle, and any failure there is GetDiskUsageError.
- `datetime.now` is taken as the integer parameters `now` and `stamp`; time is an integer count of ticks.
- JSON text and ISO-8601 parsing are not modelled. A file is classified as missing, unopenable, not UTF-8, not JSON, nested too deeply for `json.load`, or parsed to a `Json` value. A JSON string is classified as text that `fromisoformat` accepts, denoting a datetime, or other text.
- Values.FromIsoFormat: a text that `fromisoformat` accepts (a subset of ISO-8601 that depends on the Python version) is represented by the datetime (instant and offset) it denotes. So different spellings of one datetime (`2024-01-01`, a space separator, fractional seconds) are one model value, and `Json` equality is coarser than Python `str` equality. "Returned unchanged" in LoadCredentials and "loads back equal" in SaveLoadRoundTrip hold up to that identification. That `fromisoformat` accepts `isoformat()` output is assumed.
- SendMetrics.LoadCredentials: the recursion limit of `json.load` is a classification, not a depth: a file whose text nests deeper than the limit is `TooDeep` and raises RecursionError, which escapes; a `Parsed` value is taken to be within the limit, and its depth is not checked. A MemoryError from `json.load` on a huge file is not represented; it would escape too.
- JSON numbers are `real`; the distinction between JSON integers and floats is not kept. No behaviour depends on it, since a number is only ever a non-string Expiration.
- The three secrets returned by the SDK are taken to be plain strings that are never parsed as timestamps; only Expiration is ever passed to `fromisoformat`.
- SendMetrics.SdkCredentials: a naive expiration from the SDK is not representable. botocore returns aware datetimes, and `astimezone` on a naive one would use the host's local zone.
- BuildMetricError is never raised: building the dict and reading the clock cannot fail in the model.
- Exception messages are not modelled, except two: the ValueError message of `Config()`, which is built exactly, and that of `fromisoformat`, which quotes the text with plain single quotes rather than with `repr` (the two differ when the text holds a quote). No behaviour depends on the latter, since that ValueError is always swallowed.
- `load_dotenv()` is environment I/O; the environment is the `Env` map given to `FromEnv`.
- The commented-out `Config` class at the top of `config.py` is dead code.
- `constants.py` is copied into `Constants` only for the literals the core uses.
- The encoding argument and the JSON formatting of `save_credentials` (`indent`, `ensure_ascii`) are not modelled; the file holds the record as a value.
- File locking, atomic replacement and concurrent runs do not exist in the code and are not modelled.
- `get_disk_usage` wraps `psutil` and is not modelled on its own; its failure is the `getDiskUsage` oracle answering None.
