/** The configuration loader of the `initialization` package: the typed
    `Config` record, the getters that coerce raw configuration strings to
    typed values with a static default, the API-key filter, the certificate
    and key path checks, `LoadConfig` and the once-only `GetConfig`.

    The configuration source (a file merged with the environment) is the
    abstract `Lookup`: it maps every key to its raw string, `""` when the key
    is absent. Whether a file exists is the abstract `fileExists` predicate. */
module Initialization {
  import opened Wrappers
  import opened Strings
  import opened StrConv

  type Lookup = string -> string

  datatype Config = Config(
    Initialized: bool,
    FeishuAppId: string,
    FeishuAppSecret: string,
    FeishuAppEncryptKey: string,
    FeishuAppVerificationToken: string,
    FeishuBotName: string,
    OpenaiApiKeys: seq<string>,
    HttpPort: int,
    HttpsPort: int,
    UseHttps: bool,
    CertFile: string,
    KeyFile: string,
    OpenaiApiUrl: string,
    HttpProxy: string,
    OpenAIHttpClientTimeOut: int,
    HttpLoggerEnable: bool,
    HttpLoggerUrl: string,
    HttpLoggerMethod: string,
    HttpLoggerInterval: int,
    HttpLoggerThreshold: int,
    AzureOn: bool,
    AzureApiVersion: string,
    AzureDeploymentName: string,
    AzureResourceName: string,
    AzureOpenaiToken: string
  )

  // The configuration keys, one per field of Config except Initialized.
  const AppIdKey := "APP_ID"
  const AppSecretKey := "APP_SECRET"
  const AppEncryptKeyKey := "APP_ENCRYPT_KEY"
  const AppVerificationTokenKey := "APP_VERIFICATION_TOKEN"
  const BotNameKey := "BOT_NAME"
  const OpenaiKeyKey := "OPENAI_KEY"
  const HttpPortKey := "HTTP_PORT"
  const HttpsPortKey := "HTTPS_PORT"
  const UseHttpsKey := "USE_HTTPS"
  const CertFileKey := "CERT_FILE"
  const KeyFileKey := "KEY_FILE"
  const ApiUrlKey := "API_URL"
  const HttpProxyKey := "HTTP_PROXY"
  const ClientTimeoutKey := "OPENAI_HTTP_CLIENT_TIMEOUT"
  const HttpLoggerEnableKey := "HTTP_LOGGER_ENABLE"
  const HttpLoggerUrlKey := "HTTP_LOGGER_URL"
  const HttpLoggerMethodKey := "HTTP_LOGGER_METHOD"
  const HttpLoggerIntervalKey := "HTTP_LOGGER_INTERVAL"
  const HttpLoggerThresholdKey := "HTTP_LOGGER_THRESHOLD"
  const AzureOnKey := "AZURE_ON"
  const AzureApiVersionKey := "AZURE_API_VERSION"
  const AzureDeploymentNameKey := "AZURE_DEPLOYMENT_NAME"
  const AzureResourceNameKey := "AZURE_RESOURCE_NAME"
  const AzureOpenaiTokenKey := "AZURE_OPENAI_TOKEN"

  // The non-empty static defaults; every other string defaults to "",
  // every other bool to false and the key list to nil (the empty sequence).
  const DefaultHttpPort := 9000
  const DefaultHttpsPort := 9001
  const DefaultCertFile := "cert.pem"
  const DefaultKeyFile := "key.pem"
  const DefaultApiUrl := "https://api.openai.com"
  const DefaultClientTimeout := 550
  const DefaultHttpLoggerInterval := 10
  const DefaultHttpLoggerThreshold := 10
  const DefaultAzureApiVersion := "2023-03-15-preview"

  /** The rule all typed getters share: an empty raw value means the
      default, and so does a value the field's parser rejects. */
  function Coerce<T>(raw: string, default: T, parse: string -> Option<T>): (r: T)
    ensures raw == "" ==> r == default
    ensures raw != "" && parse(raw).Some? ==> r == parse(raw).value
    ensures raw != "" && parse(raw).None? ==> r == default
  {
    if raw == "" then default else parse(raw).GetOr(default)
  }

  /** String fields take the raw value as it is. */
  function Verbatim(raw: string): Option<string>
  {
    Some(raw)
  }

  /** `getViperStringValue`: the raw value verbatim unless it is empty. */
  function GetString(lookup: Lookup, key: string, default: string): (r: string)
    ensures lookup(key) != "" ==> r == lookup(key)
    ensures lookup(key) == "" ==> r == default
    ensures r == "" <==> lookup(key) == "" && default == ""
  {
    Coerce(lookup(key), default, Verbatim)
  }

  /** `getViperIntValue`: the value Atoi reads from the raw string, or the
      default when it reads nothing. */
  function GetInt(lookup: Lookup, key: string, default: int): (r: int)
    ensures Atoi(lookup(key)).Some? ==> r == Atoi(lookup(key)).value
    ensures Atoi(lookup(key)).None? ==> r == default
    ensures InInt64(default) ==> InInt64(r)
  {
    Coerce(lookup(key), default, Atoi)
  }

  /** `getViperBoolValue`: the truth value of one of ParseBool's twelve
      spellings, or the default for anything else. */
  function GetBool(lookup: Lookup, key: string, default: bool): (r: bool)
    ensures lookup(key) in TrueForms ==> r
    ensures lookup(key) in FalseForms ==> !r
    ensures lookup(key) !in TrueForms + FalseForms ==> r == default
  {
    Coerce(lookup(key), default, ParseBool)
  }

  /** A key in one of the two accepted API-key formats. */
  function IsFormatKey(key: string): (b: bool)
    ensures b <==> || (3 <= |key| && key[0] == 's' && key[1] == 'k' && key[2] == '-')
                   || (2 <= |key| && key[0] == 'f' && key[1] == 'k')
  {
    HasPrefix(key, "sk-") || HasPrefix(key, "fk")
  }

  /** `a` can be obtained from `b` by deleting elements. */
  ghost predicate IsSubsequence<T>(a: seq<T>, b: seq<T>)
    decreases |b|
  {
    || |a| == 0
    || (&& |b| > 0
        && ((a[0] == b[0] && IsSubsequence(a[1..], b[1..])) || IsSubsequence(a, b[1..])))
  }

  /** `filterFormatKey`: the keys in an accepted format, in their original
      order; the others are dropped. */
  function FilterFormatKey(keys: seq<string>): (r: seq<string>)
    ensures |r| <= |keys|
    ensures forall i :: 0 <= i < |r| ==> IsFormatKey(r[i]) && r[i] in keys
  {
    if |keys| == 0 then []
    else if IsFormatKey(keys[0]) then [keys[0]] + FilterFormatKey(keys[1..])
    else FilterFormatKey(keys[1..])
  }

  /** The filter only deletes: its output is an order-preserving
      subsequence of its input. */
  lemma {:induction false} FilterFormatKeySubsequence(keys: seq<string>)
    ensures IsSubsequence(FilterFormatKey(keys), keys)
  {
    if |keys| > 0 {
      FilterFormatKeySubsequence(keys[1..]);
    }
  }

  /** The filter keeps every occurrence of every accepted key. */
  lemma {:induction false} FilterFormatKeyCounts(keys: seq<string>, k: string)
    requires IsFormatKey(k)
    ensures multiset(FilterFormatKey(keys))[k] == multiset(keys)[k]
  {
    if |keys| > 0 {
      assert keys == [keys[0]] + keys[1..];
      FilterFormatKeyCounts(keys[1..], k);
    }
  }

  /** The key list in a raw value: its comma-separated pieces, filtered. */
  function ParseKeyList(raw: string): (r: Option<seq<string>>)
    ensures r.Some?
    ensures forall i :: 0 <= i < |r.value| ==>
      IsFormatKey(r.value[i]) && ',' !in r.value[i] && r.value[i] in Split(raw, ',')
  {
    Some(FilterFormatKey(Split(raw, ',')))
  }

  /** `getViperStringArray`: the accepted keys among the comma-separated
      pieces of the raw value, or the default when the raw value is empty. */
  function GetStringArray(lookup: Lookup, key: string, default: seq<string>): (r: seq<string>)
    ensures lookup(key) == "" ==> r == default
    ensures lookup(key) != "" ==> forall i :: 0 <= i < |r| ==>
      && IsFormatKey(r[i])
      && ',' !in r[i]
      && r[i] in Split(lookup(key), ',')
  {
    Coerce(lookup(key), default, ParseKeyList)
  }

  /** The check `GetCertFile` and `GetKeyFile` share: the configured path when
      it is non-empty and names an existing file, the fallback otherwise. */
  function CheckedPath(path: string, fallback: string, fileExists: string -> bool): (r: string)
    ensures r == path || r == fallback
    ensures r == fallback || (r != "" && fileExists(r))
    ensures path != "" && fileExists(path) ==> r == path
  {
    if path == "" then fallback
    else if !fileExists(path) then fallback
    else path
  }

  /** `Config.GetCertFile`. */
  function GetCertFile(config: Config, fileExists: string -> bool): (r: string)
    ensures r == config.CertFile || r == DefaultCertFile
    ensures r == DefaultCertFile || fileExists(r)
    ensures config.CertFile != "" && fileExists(config.CertFile) ==> r == config.CertFile
    ensures r != ""
  {
    CheckedPath(config.CertFile, DefaultCertFile, fileExists)
  }

  /** `Config.GetKeyFile`. */
  function GetKeyFile(config: Config, fileExists: string -> bool): (r: string)
    ensures r == config.KeyFile || r == DefaultKeyFile
    ensures r == DefaultKeyFile || fileExists(r)
    ensures config.KeyFile != "" && fileExists(config.KeyFile) ==> r == config.KeyFile
    ensures r != ""
  {
    CheckedPath(config.KeyFile, DefaultKeyFile, fileExists)
  }

  /** `LoadConfig`: every field read through its getter with its static
      default. The result is not yet marked initialized, its key list holds
      only accepted comma-free keys, and its integers are 64-bit. */
  function LoadConfig(lookup: Lookup): (c: Config)
    ensures !c.Initialized
    ensures forall i :: 0 <= i < |c.OpenaiApiKeys| ==> IsFormatKey(c.OpenaiApiKeys[i]) && ',' !in c.OpenaiApiKeys[i]
    ensures InInt64(c.HttpPort) && InInt64(c.HttpsPort) && InInt64(c.OpenAIHttpClientTimeOut)
    ensures InInt64(c.HttpLoggerInterval) && InInt64(c.HttpLoggerThreshold)
    ensures c.CertFile != "" && c.KeyFile != "" && c.OpenaiApiUrl != "" && c.AzureApiVersion != ""
  {
    Config(
      Initialized := false,
      FeishuAppId := GetString(lookup, AppIdKey, ""),
      FeishuAppSecret := GetString(lookup, AppSecretKey, ""),
      FeishuAppEncryptKey := GetString(lookup, AppEncryptKeyKey, ""),
      FeishuAppVerificationToken := GetString(lookup, AppVerificationTokenKey, ""),
      FeishuBotName := GetString(lookup, BotNameKey, ""),
      OpenaiApiKeys := GetStringArray(lookup, OpenaiKeyKey, []),
      HttpPort := GetInt(lookup, HttpPortKey, DefaultHttpPort),
      HttpsPort := GetInt(lookup, HttpsPortKey, DefaultHttpsPort),
      UseHttps := GetBool(lookup, UseHttpsKey, false),
      CertFile := GetString(lookup, CertFileKey, DefaultCertFile),
      KeyFile := GetString(lookup, KeyFileKey, DefaultKeyFile),
      OpenaiApiUrl := GetString(lookup, ApiUrlKey, DefaultApiUrl),
      HttpProxy := GetString(lookup, HttpProxyKey, ""),
      OpenAIHttpClientTimeOut := GetInt(lookup, ClientTimeoutKey, DefaultClientTimeout),
      HttpLoggerEnable := GetBool(lookup, HttpLoggerEnableKey, false),
      HttpLoggerUrl := GetString(lookup, HttpLoggerUrlKey, ""),
      HttpLoggerMethod := GetString(lookup, HttpLoggerMethodKey, ""),
      HttpLoggerInterval := GetInt(lookup, HttpLoggerIntervalKey, DefaultHttpLoggerInterval),
      HttpLoggerThreshold := GetInt(lookup, HttpLoggerThresholdKey, DefaultHttpLoggerThreshold),
      AzureOn := GetBool(lookup, AzureOnKey, false),
      AzureApiVersion := GetString(lookup, AzureApiVersionKey, DefaultAzureApiVersion),
      AzureDeploymentName := GetString(lookup, AzureDeploymentNameKey, ""),
      AzureResourceName := GetString(lookup, AzureResourceNameKey, ""),
      AzureOpenaiToken := GetString(lookup, AzureOpenaiTokenKey, "")
    )
  }

  /** The process-wide singleton behind `GetConfig`, before and after its
      one-time initialization. */
  datatype Singleton = Unresolved | Resolved(config: Config) {
    /** A published snapshot is always marked initialized. */
    predicate Valid()
    {
      Resolved? ==> config.Initialized
    }
  }

  /** `GetConfig`, sequentially: the first call loads the configuration from
      `lookup` and marks it initialized; later calls return the published
      snapshot and do not consult `lookup` at all. */
  function GetConfig(s: Singleton, lookup: Lookup): (r: (Singleton, Config))
    requires s.Valid()
    ensures r.0 == Resolved(r.1) && r.0.Valid()
    ensures s.Resolved? ==> r.1 == s.config
    ensures s.Unresolved? ==> r.1 == LoadConfig(lookup).(Initialized := true)
  {
    if s.Resolved? then (s, s.config)
    else
      var c := LoadConfig(lookup).(Initialized := true);
      (Resolved(c), c)
  }
}
