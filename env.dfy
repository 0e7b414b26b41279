/** The startup configuration of the backend: environment lookup with
    fallbacks, validation and normalisation of the server master key, and the
    configuration record the process starts with (or the error it refuses to
    start with). */
module Env {
  import opened Wrappers
  import opened Strings

  /** The process environment: variable name to value. */
  type Environment = map<string, string>

  /** The two errors the configuration code throws. */
  datatype ConfigError = MissingEnv(name: string) | InvalidMasterKey {
    /** The text of the thrown `Error`. */
    function Message(): string {
      match this
      case MissingEnv(n) => "Missing env " + n
      case InvalidMasterKey => "Invalid SERVER_MASTER_KEY: must be exactly 64 hex chars (32 bytes)"
    }
  }

  const ServerMasterKeyVar := "SERVER_MASTER_KEY"
  const MongodbUriVar := "MONGODB_URI"
  const JwtAccessSecretVar := "JWT_ACCESS_SECRET"
  const JwtRefreshSecretVar := "JWT_REFRESH_SECRET"
  const AdminBootstrapTokenVar := "ADMIN_BOOTSTRAP_TOKEN"
  const NodeEnvVar := "NODE_ENV"
  const AccessTokenTtlVar := "ACCESS_TOKEN_TTL"
  const CorsOriginVar := "CORS_ORIGIN"

  const DefaultNodeEnv := "development"
  const DefaultAccessTokenTtl := "15m"
  const DefaultCorsOrigin := "http://localhost:5173"

  /** The master key is 32 bytes, written as 64 hex characters. */
  const MasterKeyBytes := 32
  const MasterKeyHexLength := 2 * MasterKeyBytes

  /** `process.env[name]`: the value, or `undefined`. */
  function Lookup(env: Environment, name: string): Option<string>
  {
    if name in env then Some(env[name]) else None
  }

  /** JavaScript truthiness of a string that may be `undefined`. */
  predicate Truthy(v: Option<string>) {
    v.Some? && v.value != ""
  }

  /** The variable is set to a non-empty value. */
  predicate Present(env: Environment, name: string) {
    Truthy(Lookup(env, name))
  }

  /** JavaScript `a || b` on strings that may be `undefined`. */
  function Or(a: Option<string>, b: Option<string>): (r: Option<string>)
    ensures Truthy(r) <==> Truthy(a) || Truthy(b)
  {
    if Truthy(a) then a else b
  }

  /** `required(name, fallback)`: the environment value if it is non-empty,
      else the fallback; an error when neither is a non-empty string. */
  function Required(env: Environment, name: string, fallback: Option<string> := None): (r: Result<string, ConfigError>)
    ensures r.Success? <==> Present(env, name) || Truthy(fallback)
    ensures r.Success? ==> r.value != ""
    ensures Present(env, name) ==> r == Success(env[name])
    ensures !Present(env, name) && Truthy(fallback) ==> r == Success(fallback.value)
    ensures r.Failure? ==> r.error == MissingEnv(name)
  {
    var value := Or(Lookup(env, name), fallback);
    if !Truthy(value) then Failure(MissingEnv(name)) else Success(value.value)
  }

  /** `process.env[name] || dflt` for the settings that have a default. */
  function OrDefault(env: Environment, name: string, dflt: string): (r: string)
    ensures Present(env, name) ==> r == env[name]
    ensures !Present(env, name) ==> r == dflt
    ensures dflt != "" ==> r != ""
  {
    Or(Lookup(env, name), Some(dflt)).value
  }

  /** The anchored regular expression `^[0-9a-fA-F]{n}$` run as a matcher:
      consume one character of the class per repetition, then require the end
      of the input (JavaScript's `$` without the `m` flag matches only there). */
  function MatchesHexRepeat(s: string, n: nat): bool
    decreases n
  {
    if n == 0 then s == []
    else s != [] && IsHexDigit(s[0]) && MatchesHexRepeat(s[1..], n - 1)
  }

  /** The matcher accepts exactly the strings of length `n` over the hex alphabet. */
  lemma {:induction false} MatchesHexRepeatExactly(s: string, n: nat)
    ensures MatchesHexRepeat(s, n) <==> |s| == n && IsHexString(s)
    decreases n
  {
    if n != 0 && s != [] {
      MatchesHexRepeatExactly(s[1..], n - 1);
      assert IsHexString(s) <==> IsHexDigit(s[0]) && IsHexString(s[1..]) by {
        assert forall i :: 0 < i < |s| ==> s[i] == s[1..][i - 1];
      }
    }
  }

  /** What a well-formed master key is: 64 characters of the case-insensitive
      Base16 alphabet, i.e. 32 bytes. */
  predicate IsWellFormedMasterKey(s: string) {
    |s| == MasterKeyHexLength && IsHexString(s)
  }

  /** What the process keeps as its master key: 64 lower-case hex characters. */
  predicate IsNormalMasterKey(s: string) {
    |s| == MasterKeyHexLength && IsLowerHexString(s)
  }

  /** `validateMasterKey(hex)`: the lowercased key, or an error when the input
      is not exactly 64 hex characters. */
  function ValidateMasterKey(hex: string): (r: Result<string, ConfigError>)
    ensures r.Success? <==> IsWellFormedMasterKey(hex)
    ensures r.Failure? ==> r.error == InvalidMasterKey
    ensures r.Success? ==> IsNormalMasterKey(r.value) && r.value == ToLower(hex)
  {
    MatchesHexRepeatExactly(hex, MasterKeyHexLength);
    if !MatchesHexRepeat(hex, MasterKeyHexLength) then
      Failure(InvalidMasterKey)
    else
      ToLowerHex(hex);
      Success(ToLower(hex))
  }

  /** Validating an accepted key again accepts it and returns it unchanged. */
  lemma ValidateMasterKeyIdempotent(hex: string)
    requires ValidateMasterKey(hex).Success?
    ensures ValidateMasterKey(ValidateMasterKey(hex).value) == ValidateMasterKey(hex)
  {
    var k := ValidateMasterKey(hex).value;
    ToLowerOfLowerHex(k);
    ToLowerHex(k);
  }

  /** Two inputs that differ only in the case of letters are accepted or
      rejected together, and when accepted give the same key. */
  lemma ValidateMasterKeyCaseInsensitive(s: string, t: string)
    requires ToLower(s) == ToLower(t)
    ensures ValidateMasterKey(s) == ValidateMasterKey(t)
  {
  }

  /** The settings the backend exports. The numeric settings (`PORT`,
      `REFRESH_TOKEN_TTL_DAYS` and the rate limits) are not part of this model. */
  datatype Config = Config(
    nodeEnv: string,
    mongodbUri: string,
    jwtAccessSecret: string,
    jwtRefreshSecret: string,
    accessTokenTtl: string,
    serverMasterKey: string,
    adminBootstrapToken: string,
    corsOrigin: string)

  /** The environment lets the process start. */
  predicate StartupConditions(env: Environment) {
    Present(env, ServerMasterKeyVar) && IsWellFormedMasterKey(env[ServerMasterKeyVar]) &&
    Present(env, MongodbUriVar) && Present(env, JwtAccessSecretVar) &&
    Present(env, JwtRefreshSecretVar) && Present(env, AdminBootstrapTokenVar)
  }

  /** Loading the configuration module: the master key is resolved and
      validated first, then the exported object is built in field order,
      and the first failing `required` is the error the process dies with. */
  function LoadConfig(env: Environment): (r: Result<Config, ConfigError>)
    ensures r.Success? <==> StartupConditions(env)
    ensures r.Success? ==> IsNormalMasterKey(r.value.serverMasterKey) &&
                           r.value.serverMasterKey == ToLower(env[ServerMasterKeyVar])
    ensures !Present(env, ServerMasterKeyVar) ==> r == Failure(MissingEnv(ServerMasterKeyVar))
    ensures Present(env, ServerMasterKeyVar) && !IsWellFormedMasterKey(env[ServerMasterKeyVar]) ==>
              r == Failure(InvalidMasterKey)
  {
    var rawKey :- Required(env, ServerMasterKeyVar);
    var masterKey :- ValidateMasterKey(rawKey);
    var nodeEnv := OrDefault(env, NodeEnvVar, DefaultNodeEnv);
    var mongodbUri :- Required(env, MongodbUriVar);
    var jwtAccessSecret :- Required(env, JwtAccessSecretVar);
    var jwtRefreshSecret :- Required(env, JwtRefreshSecretVar);
    var accessTokenTtl := OrDefault(env, AccessTokenTtlVar, DefaultAccessTokenTtl);
    var adminBootstrapToken :- Required(env, AdminBootstrapTokenVar);
    var corsOrigin := OrDefault(env, CorsOriginVar, DefaultCorsOrigin);
    Success(Config(nodeEnv, mongodbUri, jwtAccessSecret, jwtRefreshSecret, accessTokenTtl,
                   masterKey, adminBootstrapToken, corsOrigin))
  }

  /** Every setting of a loaded configuration is non-empty: required settings
      carry their environment value, and each defaulted setting carries its
      environment value when that is non-empty and its default otherwise. */
  lemma LoadedConfigSettings(env: Environment)
    requires LoadConfig(env).Success?
    ensures var c := LoadConfig(env).value;
      c.mongodbUri == env[MongodbUriVar] && c.jwtAccessSecret == env[JwtAccessSecretVar] &&
      c.jwtRefreshSecret == env[JwtRefreshSecretVar] && c.adminBootstrapToken == env[AdminBootstrapTokenVar] &&
      c.nodeEnv != "" && c.accessTokenTtl != "" && c.corsOrigin != "" &&
      (Present(env, NodeEnvVar) ==> c.nodeEnv == env[NodeEnvVar]) &&
      (!Present(env, NodeEnvVar) ==> c.nodeEnv == DefaultNodeEnv) &&
      (Present(env, AccessTokenTtlVar) ==> c.accessTokenTtl == env[AccessTokenTtlVar]) &&
      (!Present(env, AccessTokenTtlVar) ==> c.accessTokenTtl == DefaultAccessTokenTtl) &&
      (Present(env, CorsOriginVar) ==> c.corsOrigin == env[CorsOriginVar]) &&
      (!Present(env, CorsOriginVar) ==> c.corsOrigin == DefaultCorsOrigin)
  {
  }

  /** With a well-formed key, a missing required setting still stops the
      process, and the error names the first missing one in field order. */
  lemma MissingSettingReported(env: Environment)
    requires Present(env, ServerMasterKeyVar) && IsWellFormedMasterKey(env[ServerMasterKeyVar])
    ensures !Present(env, MongodbUriVar) ==>
              LoadConfig(env) == Failure(MissingEnv(MongodbUriVar))
    ensures Present(env, MongodbUriVar) && !Present(env, JwtAccessSecretVar) ==>
              LoadConfig(env) == Failure(MissingEnv(JwtAccessSecretVar))
    ensures Present(env, MongodbUriVar) && Present(env, JwtAccessSecretVar) &&
            !Present(env, JwtRefreshSecretVar) ==>
              LoadConfig(env) == Failure(MissingEnv(JwtRefreshSecretVar))
    ensures Present(env, MongodbUriVar) && Present(env, JwtAccessSecretVar) &&
            Present(env, JwtRefreshSecretVar) && !Present(env, AdminBootstrapTokenVar) ==>
              LoadConfig(env) == Failure(MissingEnv(AdminBootstrapTokenVar))
  {
  }
}
