/** Properties of the configuration loader that relate several calls: the
    key filter's fixpoints, the getters read back what the matching Go
    formatter writes, the defaults table, and `LoadConfig` read back from a
    rendering of its own result. */
module ConfigProperties {
  import opened Wrappers
  import opened Strings
  import opened StrConv
  import opened Initialization

  // ---------------------------------------------------------------------
  // filterFormatKey

  /** The filter leaves a list unchanged exactly when every key in it is in
      an accepted format. */
  lemma {:induction false} FilterFormatKeyFixpoint(keys: seq<string>)
    ensures FilterFormatKey(keys) == keys <==> forall i :: 0 <= i < |keys| ==> IsFormatKey(keys[i])
  {
    if |keys| > 0 {
      FilterFormatKeyFixpoint(keys[1..]);
      if !IsFormatKey(keys[0]) {
        assert |FilterFormatKey(keys)| < |keys|;
      }
    }
  }

  /** Filtering twice is filtering once. */
  lemma FilterFormatKeyIdempotent(keys: seq<string>)
    ensures FilterFormatKey(FilterFormatKey(keys)) == FilterFormatKey(keys)
  {
    FilterFormatKeyFixpoint(FilterFormatKey(keys));
  }

  /** The filter works element by element: filtering a concatenation is
      concatenating the filtered parts. */
  lemma {:induction false} FilterFormatKeyAppend(a: seq<string>, b: seq<string>)
    ensures FilterFormatKey(a + b) == FilterFormatKey(a) + FilterFormatKey(b)
  {
    if |a| > 0 {
      assert (a + b)[0] == a[0];
      assert (a + b)[1..] == a[1..] + b;
      FilterFormatKeyAppend(a[1..], b);
      if IsFormatKey(a[0]) {
        assert [a[0]] + (FilterFormatKey(a[1..]) + FilterFormatKey(b))
            == ([a[0]] + FilterFormatKey(a[1..])) + FilterFormatKey(b);
      }
    } else {
      assert a + b == b;
    }
  }

  /** No accepted key is lost: every one of them in the input is in the
      output, and no rejected key is. */
  lemma FilterFormatKeyComplete(keys: seq<string>, k: string)
    ensures k in FilterFormatKey(keys) <==> k in keys && IsFormatKey(k)
  {
    var r := FilterFormatKey(keys);
    if IsFormatKey(k) {
      FilterFormatKeyCounts(keys, k);
      assert k in multiset(r) <==> k in multiset(keys);
    }
  }

  // ---------------------------------------------------------------------
  // getViperStringArray

  /** The keys read from a non-empty value keep the order in which they
      appear in it. */
  lemma GetStringArraySubsequence(lookup: Lookup, key: string, default: seq<string>)
    requires lookup(key) != ""
    ensures IsSubsequence(GetStringArray(lookup, key, default), Split(lookup(key), ','))
  {
    FilterFormatKeySubsequence(Split(lookup(key), ','));
  }

  /** A non-empty value is cut at every comma and nowhere else, and the
      pieces are filtered in order. */
  lemma GetStringArrayPieces(lookup: Lookup, key: string, default: seq<string>, pieces: seq<string>)
    requires |pieces| > 0
    requires forall i :: 0 <= i < |pieces| ==> ',' !in pieces[i]
    requires lookup(key) == Join(pieces, ',') != ""
    ensures GetStringArray(lookup, key, default) == FilterFormatKey(pieces)
  {
    SplitJoin(pieces, ',');
  }

  /** A non-empty comma-joined list of accepted, comma-free keys is read back
      as exactly that list, duplicates and order included. */
  lemma GetStringArrayJoin(lookup: Lookup, key: string, default: seq<string>, keys: seq<string>)
    requires |keys| > 0
    requires forall i :: 0 <= i < |keys| ==> IsFormatKey(keys[i]) && ',' !in keys[i]
    requires lookup(key) == Join(keys, ',')
    ensures GetStringArray(lookup, key, default) == keys
  {
    SplitJoin(keys, ',');
    FilterFormatKeyFixpoint(keys);
  }

  /** Three copies of one key stay three. */
  lemma GetStringArrayRepeatedKey(lookup: Lookup, key: string)
    requires lookup(key) == "sk-xxx,sk-xxx,sk-xxx"
    ensures GetStringArray(lookup, key, []) == ["sk-xxx", "sk-xxx", "sk-xxx"]
  {
    var keys := ["sk-xxx", "sk-xxx", "sk-xxx"];
    assert Join(keys, ',') == "sk-xxx,sk-xxx,sk-xxx";
    assert HasPrefix("sk-xxx", "sk-");
    GetStringArrayJoin(lookup, key, [], keys);
  }

  /** A key in neither format is dropped without disturbing the order of
      the others. */
  lemma GetStringArrayDropsBadKey(lookup: Lookup, key: string)
    requires lookup(key) == "sk-aaa,bad-key,fk-bbb"
    ensures GetStringArray(lookup, key, []) == ["sk-aaa", "fk-bbb"]
  {
    var pieces := ["sk-aaa", "bad-key", "fk-bbb"];
    assert Join(pieces, ',') == "sk-aaa,bad-key,fk-bbb";
    GetStringArrayPieces(lookup, key, [], pieces);
    FilterFormatKeyDropsBadKey();
  }

  /** The filter step of the example above. */
  lemma FilterFormatKeyDropsBadKey()
    ensures FilterFormatKey(["sk-aaa", "bad-key", "fk-bbb"]) == ["sk-aaa", "fk-bbb"]
  {
  }

  /** Pieces are not trimmed: a key written after a comma and a space
      starts with the space and is dropped. */
  lemma GetStringArrayKeepsSpaces(lookup: Lookup, key: string)
    requires lookup(key) == "sk-aaa, sk-bbb"
    ensures GetStringArray(lookup, key, []) == ["sk-aaa"]
  {
    var pieces := ["sk-aaa", " sk-bbb"];
    assert Join(pieces, ',') == "sk-aaa, sk-bbb";
    GetStringArrayPieces(lookup, key, [], pieces);
    FilterFormatKeyDropsSpacedKey();
  }

  /** The filter step of the example above. */
  lemma FilterFormatKeyDropsSpacedKey()
    ensures FilterFormatKey(["sk-aaa", " sk-bbb"]) == ["sk-aaa"]
  {
  }

  /** A value made only of separators yields no key at all, never the empty
      string as a key, and not the default either. */
  lemma GetStringArrayOnlySeparators(lookup: Lookup, key: string, default: seq<string>)
    requires lookup(key) == ",,"
    ensures GetStringArray(lookup, key, default) == []
  {
    var pieces := ["", "", ""];
    assert Join(pieces, ',') == ",,";
    SplitJoin(pieces, ',');
    assert !IsFormatKey("");
  }

  // ---------------------------------------------------------------------
  // getViperIntValue and getViperBoolValue

  /** An integer field reads back any 64-bit value written in decimal. */
  lemma GetIntFormatInt(lookup: Lookup, key: string, default: int, n: int)
    requires InInt64(n)
    requires lookup(key) == FormatInt(n)
    ensures GetInt(lookup, key, default) == n
  {
    AtoiFormatInt(n);
  }

  /** A decimal value beyond 64 bits is a range error, so the field keeps
      its default. */
  lemma GetIntOverflow(lookup: Lookup, key: string, default: int, n: int)
    requires !InInt64(n)
    requires lookup(key) == FormatInt(n)
    ensures GetInt(lookup, key, default) == default
  {
    AtoiFormatInt(n);
  }

  /** A value with a character Atoi does not accept keeps the default. */
  lemma GetIntNonNumeric(lookup: Lookup, key: string, default: int, i: nat)
    requires i < |lookup(key)| && !IsDigit(lookup(key)[i])
    requires i > 0 || (lookup(key)[0] != '+' && lookup(key)[0] != '-')
    ensures GetInt(lookup, key, default) == default
  {
    AtoiRejectsNonDigit(lookup(key), i);
  }

  /** A boolean field reads back what FormatBool writes. */
  lemma GetBoolFormatBool(lookup: Lookup, key: string, default: bool, b: bool)
    requires lookup(key) == FormatBool(b)
    ensures GetBool(lookup, key, default) == b
  {
    ParseFormatBool(b);
  }

  // ---------------------------------------------------------------------
  // GetCertFile and GetKeyFile

  /** Checking a checked path again changes nothing: the result is either an
      existing configured file or the fallback, which is kept either way. */
  lemma CheckedPathIdempotent(path: string, fallback: string, fileExists: string -> bool)
    ensures CheckedPath(CheckedPath(path, fallback, fileExists), fallback, fileExists)
         == CheckedPath(path, fallback, fileExists)
  {
  }

  /** The configured certificate is used exactly when it names an existing
      file (or is itself the default name). */
  lemma GetCertFileChoice(config: Config, fileExists: string -> bool)
    ensures GetCertFile(config, fileExists) == config.CertFile
        <==> (config.CertFile != "" && fileExists(config.CertFile)) || config.CertFile == DefaultCertFile
  {
  }

  /** The configured key file is used exactly when it names an existing file
      (or is itself the default name). */
  lemma GetKeyFileChoice(config: Config, fileExists: string -> bool)
    ensures GetKeyFile(config, fileExists) == config.KeyFile
        <==> (config.KeyFile != "" && fileExists(config.KeyFile)) || config.KeyFile == DefaultKeyFile
  {
  }

  // ---------------------------------------------------------------------
  // LoadConfig

  /** The keys LoadConfig reads. */
  const ConfigKeys: set<string> := {
    AppIdKey, AppSecretKey, AppEncryptKeyKey, AppVerificationTokenKey, BotNameKey,
    OpenaiKeyKey, HttpPortKey, HttpsPortKey, UseHttpsKey, CertFileKey, KeyFileKey,
    ApiUrlKey, HttpProxyKey, ClientTimeoutKey, HttpLoggerEnableKey, HttpLoggerUrlKey,
    HttpLoggerMethodKey, HttpLoggerIntervalKey, HttpLoggerThresholdKey, AzureOnKey,
    AzureApiVersionKey, AzureDeploymentNameKey, AzureResourceNameKey, AzureOpenaiTokenKey
  }

  /** With every key absent, the configuration is the defaults table. */
  lemma LoadConfigDefaults(lookup: Lookup)
    requires forall k :: k in ConfigKeys ==> lookup(k) == ""
    ensures var c := LoadConfig(lookup);
      && !c.Initialized
      && c.FeishuAppId == "" && c.FeishuAppSecret == "" && c.FeishuAppEncryptKey == ""
      && c.FeishuAppVerificationToken == "" && c.FeishuBotName == ""
      && c.OpenaiApiKeys == []
      && c.HttpPort == 9000 && c.HttpsPort == 9001 && !c.UseHttps
      && c.CertFile == "cert.pem" && c.KeyFile == "key.pem"
      && c.OpenaiApiUrl == "https://api.openai.com" && c.HttpProxy == ""
      && c.OpenAIHttpClientTimeOut == 550
      && !c.HttpLoggerEnable && c.HttpLoggerUrl == "" && c.HttpLoggerMethod == ""
      && c.HttpLoggerInterval == 10 && c.HttpLoggerThreshold == 10
      && !c.AzureOn && c.AzureApiVersion == "2023-03-15-preview"
      && c.AzureDeploymentName == "" && c.AzureResourceName == "" && c.AzureOpenaiToken == ""
  {
  }

  /** LoadConfig depends on nothing but the values of its own keys. */
  lemma LoadConfigReadsOnlyItsKeys(l1: Lookup, l2: Lookup)
    requires forall k :: k in ConfigKeys ==> l1(k) == l2(k)
    ensures LoadConfig(l1) == LoadConfig(l2)
  {
  }

  /** The configurations LoadConfig can produce: not yet marked initialized,
      64-bit integers, non-empty values where the default is non-empty, and
      only accepted, comma-free API keys. */
  predicate Loadable(c: Config)
  {
    && !c.Initialized
    && InInt64(c.HttpPort) && InInt64(c.HttpsPort) && InInt64(c.OpenAIHttpClientTimeOut)
    && InInt64(c.HttpLoggerInterval) && InInt64(c.HttpLoggerThreshold)
    && c.CertFile != "" && c.KeyFile != "" && c.OpenaiApiUrl != "" && c.AzureApiVersion != ""
    && forall i :: 0 <= i < |c.OpenaiApiKeys| ==> IsFormatKey(c.OpenaiApiKeys[i]) && ',' !in c.OpenaiApiKeys[i]
  }

  /** The raw string that makes the loader read back the given field:
      strings verbatim, integers and booleans as strconv formats them, the
      key list comma-joined. */
  function Render(c: Config, key: string): string
  {
    if key == AppIdKey then c.FeishuAppId
    else if key == AppSecretKey then c.FeishuAppSecret
    else if key == AppEncryptKeyKey then c.FeishuAppEncryptKey
    else if key == AppVerificationTokenKey then c.FeishuAppVerificationToken
    else if key == BotNameKey then c.FeishuBotName
    else if key == OpenaiKeyKey then Join(c.OpenaiApiKeys, ',')
    else if key == HttpPortKey then FormatInt(c.HttpPort)
    else if key == HttpsPortKey then FormatInt(c.HttpsPort)
    else if key == UseHttpsKey then FormatBool(c.UseHttps)
    else if key == CertFileKey then c.CertFile
    else if key == KeyFileKey then c.KeyFile
    else if key == ApiUrlKey then c.OpenaiApiUrl
    else if key == HttpProxyKey then c.HttpProxy
    else if key == ClientTimeoutKey then FormatInt(c.OpenAIHttpClientTimeOut)
    else if key == HttpLoggerEnableKey then FormatBool(c.HttpLoggerEnable)
    else if key == HttpLoggerUrlKey then c.HttpLoggerUrl
    else if key == HttpLoggerMethodKey then c.HttpLoggerMethod
    else if key == HttpLoggerIntervalKey then FormatInt(c.HttpLoggerInterval)
    else if key == HttpLoggerThresholdKey then FormatInt(c.HttpLoggerThreshold)
    else if key == AzureOnKey then FormatBool(c.AzureOn)
    else if key == AzureApiVersionKey then c.AzureApiVersion
    else if key == AzureDeploymentNameKey then c.AzureDeploymentName
    else if key == AzureResourceNameKey then c.AzureResourceName
    else if key == AzureOpenaiTokenKey then c.AzureOpenaiToken
    else ""
  }

  /** Every configuration LoadConfig returns is Loadable. */
  lemma LoadConfigIsLoadable(lookup: Lookup)
    ensures Loadable(LoadConfig(lookup))
  {
  }

  /** What Render gives for each key, one fact per field. */
  lemma RenderKeys(c: Config)
    ensures Render(c, AppIdKey) == c.FeishuAppId
    ensures Render(c, AppSecretKey) == c.FeishuAppSecret
    ensures Render(c, AppEncryptKeyKey) == c.FeishuAppEncryptKey
    ensures Render(c, AppVerificationTokenKey) == c.FeishuAppVerificationToken
    ensures Render(c, BotNameKey) == c.FeishuBotName
    ensures Render(c, OpenaiKeyKey) == Join(c.OpenaiApiKeys, ',')
    ensures Render(c, HttpPortKey) == FormatInt(c.HttpPort)
    ensures Render(c, HttpsPortKey) == FormatInt(c.HttpsPort)
    ensures Render(c, UseHttpsKey) == FormatBool(c.UseHttps)
    ensures Render(c, CertFileKey) == c.CertFile
    ensures Render(c, KeyFileKey) == c.KeyFile
    ensures Render(c, ApiUrlKey) == c.OpenaiApiUrl
    ensures Render(c, HttpProxyKey) == c.HttpProxy
    ensures Render(c, ClientTimeoutKey) == FormatInt(c.OpenAIHttpClientTimeOut)
    ensures Render(c, HttpLoggerEnableKey) == FormatBool(c.HttpLoggerEnable)
    ensures Render(c, HttpLoggerUrlKey) == c.HttpLoggerUrl
    ensures Render(c, HttpLoggerMethodKey) == c.HttpLoggerMethod
    ensures Render(c, HttpLoggerIntervalKey) == FormatInt(c.HttpLoggerInterval)
    ensures Render(c, HttpLoggerThresholdKey) == FormatInt(c.HttpLoggerThreshold)
    ensures Render(c, AzureOnKey) == FormatBool(c.AzureOn)
    ensures Render(c, AzureApiVersionKey) == c.AzureApiVersion
    ensures Render(c, AzureDeploymentNameKey) == c.AzureDeploymentName
    ensures Render(c, AzureResourceNameKey) == c.AzureResourceName
    ensures Render(c, AzureOpenaiTokenKey) == c.AzureOpenaiToken
  {
  }

  /** Conversely, every Loadable configuration is read back unchanged from
      a source that renders it, so Loadable describes LoadConfig's results
      exactly. */
  lemma LoadConfigRender(c: Config, lookup: Lookup)
    requires Loadable(c)
    requires forall k :: lookup(k) == Render(c, k)
    ensures LoadConfig(lookup) == c
  {
    RenderKeys(c);
    if |c.OpenaiApiKeys| > 0 {
      GetStringArrayJoin(lookup, OpenaiKeyKey, [], c.OpenaiApiKeys);
    }
    AtoiFormatInt(c.HttpPort);
    AtoiFormatInt(c.HttpsPort);
    AtoiFormatInt(c.OpenAIHttpClientTimeOut);
    AtoiFormatInt(c.HttpLoggerInterval);
    AtoiFormatInt(c.HttpLoggerThreshold);
    ParseFormatBool(c.UseHttps);
    ParseFormatBool(c.HttpLoggerEnable);
    ParseFormatBool(c.AzureOn);
  }

  /** Loading what a load produced, once rendered, reproduces it. */
  lemma LoadConfigStable(lookup: Lookup)
    ensures LoadConfig(k => Render(LoadConfig(lookup), k)) == LoadConfig(lookup)
  {
    var c := LoadConfig(lookup);
    LoadConfigRender(c, k => Render(c, k));
  }

  // ---------------------------------------------------------------------
  // GetConfig

  /** Only the first call reads the configuration source: whatever the
      source says later, every call returns the first snapshot. */
  lemma GetConfigOnce(first: Lookup, later: Lookup)
    ensures var (s1, c1) := GetConfig(Unresolved, first);
      && c1 == LoadConfig(first).(Initialized := true)
      && GetConfig(s1, later) == (s1, c1)
  {
  }
}
