/** config.py: the eight settings the agent reads from the environment, and the
    check that every one of them is set. */
module Configuration {
  import opened Results

  /** A constructed `Config`: one string attribute per environment variable. */
  datatype Config = Config(
    email: string,
    password: string,
    userPoolId: string,
    identityPoolId: string,
    clientId: string,
    region: string,
    cwNamespace: string,
    vol: string)

  /** The process environment: a variable is set when it is a key. */
  type Env = map<string, string>

  /** One assignment of `Config.__init__`: the attribute it sets and the variable it reads. */
  datatype Field = Field(attribute: string, variable: string)

  /** The assignments of `Config.__init__`, in the order it makes them. */
  const Fields: seq<Field> := [
    Field("email", "EMAIL"),
    Field("password", "PASSWORD"),
    Field("user_pool_id", "USER_POOL_ID"),
    Field("identity_pool_id", "IDENTITY_POOL_ID"),
    Field("client_id", "CLIENT_ID"),
    Field("region", "REGION"),
    Field("cw_namespace", "CW_NAMESPACE"),
    Field("vol", "VOL")]

  const MissingPrefix := "Missing environment variables: "

  /** `os.getenv(name)` */
  function GetEnv(env: Env, name: string): Option<string>
  {
    if name in env then Some(env[name]) else None
  }

  /** `self.__dict__.items()` after the assignments `fields` have been made. */
  function Assigned(fields: seq<Field>, env: Env): seq<(string, Option<string>)>
  {
    seq(|fields|, i requires 0 <= i < |fields| => (fields[i].attribute, GetEnv(env, fields[i].variable)))
  }

  /** `[k for k, v in items if v is None]` */
  function Unset(items: seq<(string, Option<string>)>): seq<string>
  {
    if items == [] then []
    else (if items[0].1.None? then [items[0].0] else []) + Unset(items[1..])
  }

  /** Nothing is reported exactly when every item has a value. */
  lemma {:induction false} UnsetEmpty(items: seq<(string, Option<string>)>)
    ensures Unset(items) == [] <==> forall i :: 0 <= i < |items| ==> items[i].1.Some?
  {
    if items != [] {
      UnsetEmpty(items[1..]);
      assert forall i :: 1 <= i < |items| ==> items[i] == items[1..][i - 1];
    }
  }

  /** `", ".join(parts)`, with any separator. */
  function Join(parts: seq<string>, sep: string): string
    decreases |parts|
  {
    if |parts| == 0 then ""
    else if |parts| == 1 then parts[0]
    else parts[0] + sep + Join(parts[1..], sep)
  }

  /** The message of the ValueError raised when `missing` are unset. */
  function MissingMessage(missing: seq<string>): string
  {
    MissingPrefix + Join(missing, ", ")
  }

  /** The names `Config()` reports as missing from `env`. */
  function MissingNames(env: Env): seq<string>
  {
    Unset(Assigned(Fields, env))
  }

  /** The attributes of a `Config`, in assignment order: `c.__dict__.items()`. */
  function Attributes(c: Config): seq<(string, string)>
  {
    [(Fields[0].attribute, c.email), (Fields[1].attribute, c.password),
     (Fields[2].attribute, c.userPoolId), (Fields[3].attribute, c.identityPoolId),
     (Fields[4].attribute, c.clientId), (Fields[5].attribute, c.region),
     (Fields[6].attribute, c.cwNamespace), (Fields[7].attribute, c.vol)]
  }

  /** `Config()`: the settings read from `env`, or the list of unset attribute names
      that the ValueError it raises reports. */
  function FromEnv(env: Env): (r: Result<Config, seq<string>>)
    ensures r.Ok? <==> forall i :: 0 <= i < |Fields| ==> Fields[i].variable in env
    ensures r.Ok? ==> |Attributes(r.value)| == |Fields|
    ensures r.Ok? ==> forall i :: 0 <= i < |Fields| ==>
      Attributes(r.value)[i] == (Fields[i].attribute, env[Fields[i].variable])
    ensures r.Err? ==> r.error == MissingNames(env) && r.error != []
  {
    var missing := MissingNames(env);
    var items := Assigned(Fields, env);
    UnsetEmpty(items);
    assert |items| == |Fields| && forall i :: 0 <= i < |Fields| ==> items[i].1 == GetEnv(env, Fields[i].variable);
    if missing != [] then Err(missing)
    else
      assert forall i :: 0 <= i < |Fields| ==> items[i].1.Some?;
      assert forall i :: 0 <= i < |Fields| ==> Fields[i].variable in env;
      Ok(Config(env[Fields[0].variable], env[Fields[1].variable], env[Fields[2].variable],
                env[Fields[3].variable], env[Fields[4].variable], env[Fields[5].variable],
                env[Fields[6].variable], env[Fields[7].variable]))
  }

  /** `a` is `b` with some elements left out, the rest in their order. */
  predicate IsSubsequence(a: seq<string>, b: seq<string>)
    decreases |b|
  {
    a == [] || (b != [] && ((a[0] == b[0] && IsSubsequence(a[1..], b[1..])) || IsSubsequence(a, b[1..])))
  }

  /** The keys of `items`, in order. */
  function Keys(items: seq<(string, Option<string>)>): seq<string>
  {
    seq(|items|, i requires 0 <= i < |items| => items[i].0)
  }

  /** A name is reported exactly when it is the key of an item whose value is None. */
  lemma {:induction false} UnsetMembership(items: seq<(string, Option<string>)>, name: string)
    ensures name in Unset(items) <==> exists i :: 0 <= i < |items| && items[i] == (name, None)
  {
    if items != [] {
      UnsetMembership(items[1..], name);
      if exists i :: 0 <= i < |items| && items[i] == (name, None) {
        var i :| 0 <= i < |items| && items[i] == (name, None);
        if i > 0 { assert items[1..][i - 1] == (name, None); }
      }
      if exists i :: 0 <= i < |items[1..]| && items[1..][i] == (name, None) {
        var i :| 0 <= i < |items[1..]| && items[1..][i] == (name, None);
        assert items[i + 1] == (name, None);
      }
    }
  }

  /** The reported names keep the order of the items they come from. */
  lemma {:induction false} UnsetKeepsOrder(items: seq<(string, Option<string>)>)
    ensures IsSubsequence(Unset(items), Keys(items))
  {
    if items != [] {
      UnsetKeepsOrder(items[1..]);
      assert Keys(items)[1..] == Keys(items[1..]);
      if items[0].1.None? {
        assert Unset(items) == [items[0].0] + Unset(items[1..]);
      } else {
        assert Unset(items) == Unset(items[1..]);
      }
    }
  }

  /** `Config()` reports exactly the unset variables, by attribute name, in assignment order. */
  lemma MissingNamesUnsetVariables(env: Env, name: string)
    ensures name in MissingNames(env) <==> exists i :: 0 <= i < |Fields| && Fields[i].attribute == name && Fields[i].variable !in env
    ensures IsSubsequence(MissingNames(env), ["email", "password", "user_pool_id", "identity_pool_id",
                                         "client_id", "region", "cw_namespace", "vol"])
  {
    var items := Assigned(Fields, env);
    UnsetMembership(items, name);
    if exists i :: 0 <= i < |items| && items[i] == (name, None) {
      var i :| 0 <= i < |items| && items[i] == (name, None);
      assert Fields[i].attribute == name && Fields[i].variable !in env;
    }
    if exists i :: 0 <= i < |Fields| && Fields[i].attribute == name && Fields[i].variable !in env {
      var i :| 0 <= i < |Fields| && Fields[i].attribute == name && Fields[i].variable !in env;
      assert items[i] == (name, None);
    }
    UnsetKeepsOrder(items);
    assert Keys(items) == ["email", "password", "user_pool_id", "identity_pool_id",
                           "client_id", "region", "cw_namespace", "vol"];
  }

  /** An environment with USER_POOL_ID and VOL unset: those two attribute names, in that order. */
  lemma TwoMissingNames(env: Env)
    requires "EMAIL" in env && "PASSWORD" in env && "USER_POOL_ID" !in env && "IDENTITY_POOL_ID" in env
    requires "CLIENT_ID" in env && "REGION" in env && "CW_NAMESPACE" in env && "VOL" !in env
    ensures MissingNames(env) == ["user_pool_id", "vol"]
  {
    var items := Assigned(Fields, env);
    assert items[0].1.Some? && items[1].1.Some? && items[2].1.None? && items[3].1.Some?;
    assert items[4].1.Some? && items[5].1.Some? && items[6].1.Some? && items[7].1.None?;
    assert items[2].0 == "user_pool_id" && items[7].0 == "vol";
    assert items[8..] == [];
    assert Unset(items[7..]) == ["vol"] by { assert items[7..][0] == items[7] && items[7..][1..] == items[8..]; }
    assert Unset(items[6..]) == ["vol"] by { assert items[6..][0] == items[6] && items[6..][1..] == items[7..]; }
    assert Unset(items[5..]) == ["vol"] by { assert items[5..][0] == items[5] && items[5..][1..] == items[6..]; }
    assert Unset(items[4..]) == ["vol"] by { assert items[4..][0] == items[4] && items[4..][1..] == items[5..]; }
    assert Unset(items[3..]) == ["vol"] by { assert items[3..][0] == items[3] && items[3..][1..] == items[4..]; }
    assert Unset(items[2..]) == ["user_pool_id", "vol"] by { assert items[2..][0] == items[2] && items[2..][1..] == items[3..]; }
    assert Unset(items[1..]) == ["user_pool_id", "vol"] by { assert items[1..][0] == items[1] && items[1..][1..] == items[2..]; }
    assert Unset(items[0..]) == ["user_pool_id", "vol"] by { assert items[0..][0] == items[0] && items[0..][1..] == items[1..]; }
    assert items[0..] == items;
  }

  /** ... and the ValueError's message lists them comma-separated. */
  lemma TwoMissingVariables(env: Env)
    requires "EMAIL" in env && "PASSWORD" in env && "USER_POOL_ID" !in env && "IDENTITY_POOL_ID" in env
    requires "CLIENT_ID" in env && "REGION" in env && "CW_NAMESPACE" in env && "VOL" !in env
    ensures FromEnv(env) == Err(["user_pool_id", "vol"])
    ensures MissingMessage(FromEnv(env).error) == "Missing environment variables: user_pool_id, vol"
  {
    TwoMissingNames(env);
    assert Join(["user_pool_id", "vol"], ", ") == "user_pool_id, vol";
  }

  /** Only an unset variable is missing: one set to the empty string is taken verbatim. */
  lemma EmptyValueIsAccepted(env: Env)
    requires forall i :: 0 <= i < |Fields| ==> Fields[i].variable in env
    requires "VOL" in env && env["VOL"] == ""
    ensures FromEnv(env).Ok? && FromEnv(env).value.vol == ""
  {
  }
}
