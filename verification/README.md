# Configuration loader of feishu-chatgpt, in Dafny

This project models the `initialization` package of the feishu-chatgpt bot
(`code/initialization/config.go`). That package turns raw configuration
strings into one typed `Config` record. The record holds the Feishu app
credentials, the OpenAI API keys and URL, the HTTP/HTTPS ports, the TLS
certificate and key paths, the HTTP-logger settings and the Azure settings.

The configuration source is viper: a YAML file merged with the process
environment. Here it is the abstract `Lookup = string -> string`. It returns
the raw string for a key, and `""` when the key is absent. Whether a file
exists (`os.Stat` succeeds) is the abstract `fileExists: string -> bool`.
Everything else is pure:

- `wrappers.dfy`, module `Wrappers`: `Option`. `None` stands for a Go parse
  error.
- `strings.dfy`, module `Strings`: `strings.HasPrefix`, and `strings.Split`
  with a one-character separator, plus `Join` as its inverse.
- `strconv.dfy`, module `StrConv`: `strconv.Atoi` and `strconv.ParseBool`,
  with `FormatInt` and `FormatBool` as their inverses. Go's `int` is taken
  as 64 bits wide.
- `initialization.dfy`, module `Initialization`: the `Config` record, the four
  getters (`getViperStringValue`, `getViperIntValue`, `getViperBoolValue`,
  `getViperStringArray`), `filterFormatKey`, `GetCertFile`/`GetKeyFile`,
  `LoadConfig` and the once-only `GetConfig`.
  - The four getters share one coercion rule, `Coerce`: an empty raw value
    gives the default, and so does a value the field's parser rejects.
  - `GetConfig` is modelled sequentially. A `Singleton` is either
    `Unresolved` or `Resolved(config)`. The first call loads the record and
    marks it `Initialized`; every later call returns that same snapshot.
- `properties.dfy`, module `ConfigProperties`: properties that relate
  several calls. These are the filter's fixpoints and idempotence, read-back
  of the strconv formatters through the getters, the defaults table, and a
  round trip: `LoadConfig` reads back every record it can produce from a
  rendering of that record.

Points where the code's behaviour may surprise, all kept as written:

- The key list is not deduplicated. `GetStringArrayRepeatedKey` proves that
  duplicates are kept.
- Go returns `nil` both for an empty `OPENAI_KEY` and for a value in which
  no piece is an accepted key. Both are the empty sequence here.
- The comment above `filterFormatKey` mentions only `sk-`. The code also
  accepts the `fk` prefix, and so does the model.

## Model

| member | source | states |
|---|---|---|
| `Initialization.Coerce` | code/initialization/config.go:107-150 | An empty raw value gives the default, and so does one the field's parser rejects. Otherwise the result is the parsed value. |
| `Initialization.GetString` | code/initialization/config.go:107-113 | A non-empty raw value is returned verbatim. An empty one gives the default. The result is empty only when both are empty. |
| `Initialization.GetInt` | code/initialization/config.go:126-137 | The result is Atoi's value when Atoi accepts the raw value, and the default otherwise (this covers `""`). It stays within 64 bits when the default does. |
| `Initialization.GetBool` | code/initialization/config.go:139-150 | One of ParseBool's six true spellings gives true and one of its six false spellings gives false. Anything else, `""` included, gives the default. |
| `Initialization.IsFormatKey` | code/initialization/config.go:178-179 | A key is accepted exactly when it starts with `sk-` or with `fk`. No dash is needed after `fk`. |
| `Initialization.FilterFormatKey` | code/initialization/config.go:175-185 | The output is no longer than the input. Every output key starts with `sk-` or `fk` and occurs in the input. |
| `Initialization.FilterFormatKeySubsequence` | code/initialization/config.go:175-185 | The filter's output is an order-preserving subsequence of its input. |
| `Initialization.FilterFormatKeyCounts` | code/initialization/config.go:175-185 | Every accepted key occurs in the output exactly as often as in the input. |
| `Initialization.ParseKeyList` | code/initialization/config.go:122-123 | Splitting on commas and filtering never fails. Every key it yields is accepted, comma-free and one of the comma pieces. |
| `Initialization.GetStringArray` | code/initialization/config.go:115-124 | An empty raw value gives the default. Otherwise every key returned is an accepted, comma-free piece of the raw value. |
| `Initialization.CheckedPath` | code/initialization/config.go:152-172 | The result is the configured path or the fallback. The configured path is kept when it is non-empty and exists. Any result other than the fallback is an existing file. |
| `Initialization.GetCertFile` | code/initialization/config.go:152-161 | The result is the configured certificate path or `cert.pem`. A non-empty configured path that exists is kept. The result is never empty, and if it is not `cert.pem` the file exists. |
| `Initialization.GetKeyFile` | code/initialization/config.go:163-172 | The result is the configured key path or `key.pem`. A non-empty configured path that exists is kept. The result is never empty, and if it is not `key.pem` the file exists. |
| `Initialization.LoadConfig` | code/initialization/config.go:64-105 | The loaded record is not yet marked initialized. Its API keys are all accepted and comma-free. Its integers are 64-bit. The certificate, key, API URL and Azure version are never empty. |
| `Initialization.GetConfig` | code/initialization/config.go:51-62 | The first call publishes the loaded record marked initialized. Once published, a snapshot is returned unchanged. |
| `Strings.HasPrefix` | code/initialization/config.go:178-179 | The prefix is no longer than the string, and each of its characters equals the string's character at the same position. |
| `Strings.Split` | code/initialization/config.go:122 | Splitting on a comma gives at least one piece, and no piece contains a comma. |
| `Strings.SplitCount` | code/initialization/config.go:122 | There is one more piece than the raw value has commas. |
| `Strings.JoinSplit` | code/initialization/config.go:122 | Re-joining the pieces with commas gives back the raw value. |
| `Strings.SplitJoin` | code/initialization/config.go:122 | Splitting a comma-join of one or more comma-free pieces gives back those pieces. |
| `StrConv.Atoi` | code/initialization/config.go:131-135 | An accepted value lies in the 64-bit range and starts with a digit or a sign. |
| `StrConv.AtoiFormatInt` | code/initialization/config.go:131-136 | Atoi reads back every 64-bit integer written in decimal. It rejects every decimal integer outside that range. |
| `StrConv.AtoiLeadingZeroAndPlus` | code/initialization/config.go:131 | A leading zero does not make a value octal or invalid, with or without a `-` in front (`-007` is -7). An explicit `+` changes nothing. |
| `StrConv.AtoiRejectsBareSign` | code/initialization/config.go:131-135 | `""`, a lone `+` and a lone `-` are parse errors. |
| `StrConv.AtoiAccepted` | code/initialization/config.go:131-135 | Every accepted value is an optional sign, some zeros, then the canonical decimal rendering of the magnitude. A `-` stands before every negative result and before no positive one. |
| `StrConv.AtoiWritten` | code/initialization/config.go:131-135 | Conversely, every such string whose value fits in 64 bits is accepted with that value. |
| `StrConv.AtoiRejectsNonDigit` | code/initialization/config.go:131-135 | A value with any character other than a leading sign or a digit is a parse error. |
| `StrConv.ParseBool` | code/initialization/config.go:144-149 | ParseBool gives true exactly for `1, t, T, TRUE, true, True` and false exactly for `0, f, F, FALSE, false, False`. |
| `StrConv.ParseFormatBool` | code/initialization/config.go:144 | ParseBool reads back what FormatBool writes. |
| `StrConv.ParseBoolForms` | code/initialization/config.go:144-149 | No spelling is both true and false. `""`, `yes` and `tRUE` are errors. |
| `ConfigProperties.FilterFormatKeyFixpoint` | code/initialization/config.go:175-185 | The filter leaves a list unchanged exactly when every key in it is accepted. |
| `ConfigProperties.FilterFormatKeyIdempotent` | code/initialization/config.go:175-185 | Filtering twice is the same as filtering once. |
| `ConfigProperties.FilterFormatKeyAppend` | code/initialization/config.go:175-185 | Filtering a concatenation is concatenating the filtered parts. |
| `ConfigProperties.FilterFormatKeyComplete` | code/initialization/config.go:175-185 | A key is in the output if and only if it is in the input and has an accepted prefix. |
| `ConfigProperties.FilterFormatKeyDropsBadKey` | code/initialization/config.go:175-185 | `[sk-aaa, bad-key, fk-bbb]` filters to `[sk-aaa, fk-bbb]`. |
| `ConfigProperties.FilterFormatKeyDropsSpacedKey` | code/initialization/config.go:175-185 | `[sk-aaa, " sk-bbb"]` filters to `[sk-aaa]`, because a key with a leading space has no accepted prefix. |
| `ConfigProperties.GetStringArraySubsequence` | code/initialization/config.go:117-124 | The keys read from a non-empty value keep their order in it. |
| `ConfigProperties.GetStringArrayPieces` | code/initialization/config.go:117-124 | A non-empty value that is a comma-join of comma-free pieces gives exactly the filter of those pieces. |
| `ConfigProperties.GetStringArrayJoin` | code/initialization/config.go:115-124 | A comma-join of one or more accepted, comma-free keys is read back as exactly that list. |
| `ConfigProperties.GetStringArrayRepeatedKey` | code/initialization/config.go:115-116 | `sk-xxx,sk-xxx,sk-xxx` gives three `sk-xxx` keys. |
| `ConfigProperties.GetStringArrayDropsBadKey` | code/initialization/config.go:117-124 | `sk-aaa,bad-key,fk-bbb` gives `[sk-aaa, fk-bbb]`. |
| `ConfigProperties.GetStringArrayKeepsSpaces` | code/initialization/config.go:117-124 | Pieces are not trimmed, so `sk-aaa, sk-bbb` gives only `[sk-aaa]`. |
| `ConfigProperties.GetStringArrayOnlySeparators` | code/initialization/config.go:117-124 | `,,` gives no keys at all. It does not give the default, and it never gives `""` as a key. |
| `ConfigProperties.GetIntFormatInt` | code/initialization/config.go:126-137 | An integer field reads back any 64-bit integer written in decimal. |
| `ConfigProperties.GetIntOverflow` | code/initialization/config.go:131-135 | A decimal integer beyond 64 bits is a range error, so the field keeps its default. |
| `ConfigProperties.GetIntNonNumeric` | code/initialization/config.go:131-135 | A value with a character Atoi does not accept keeps the default. |
| `ConfigProperties.GetBoolFormatBool` | code/initialization/config.go:139-150 | A boolean field reads back `true` and `false`. |
| `ConfigProperties.CheckedPathIdempotent` | code/initialization/config.go:152-172 | Checking an already checked path again changes nothing. |
| `ConfigProperties.GetCertFileChoice` | code/initialization/config.go:152-161 | The configured certificate path is used exactly when it is non-empty and exists, or is `cert.pem` itself. |
| `ConfigProperties.GetKeyFileChoice` | code/initialization/config.go:163-172 | The configured key path is used exactly when it is non-empty and exists, or is `key.pem` itself. |
| `ConfigProperties.LoadConfigDefaults` | code/initialization/config.go:74-102 | With every key absent, the record is the defaults table: ports 9000/9001, `cert.pem`, `key.pem`, `https://api.openai.com`, timeout 550, logger 10/10, Azure version `2023-03-15-preview`, no API keys. Every other string is empty and every other bool is false. |
| `ConfigProperties.LoadConfigReadsOnlyItsKeys` | code/initialization/config.go:74-102 | Two sources that agree on the 24 configuration keys load the same record. |
| `ConfigProperties.LoadConfigIsLoadable` | code/initialization/config.go:74-102 | Every loaded record satisfies `Loadable`. |
| `ConfigProperties.LoadConfigRender` | code/initialization/config.go:74-102 | Every `Loadable` record is loaded back unchanged from a source that renders it. So `Loadable` describes exactly the records LoadConfig can produce. |
| `ConfigProperties.LoadConfigStable` | code/initialization/config.go:64-105 | Rendering a loaded record and loading it again gives back the same record. |
| `ConfigProperties.GetConfigOnce` | code/initialization/config.go:54-62 | The first GetConfig call loads from the source and marks the record initialized. A later call returns the same snapshot, whatever the source says by then. |

## Left out

- Viper (`SetConfigFile`, `ReadInConfig`, `AutomaticEnv`, `GetString`) is a foreign library. It is the abstract `Lookup`. Reading the file, the environment-over-file precedence and viper's own string conversion of YAML values all live inside it and are not modelled.
- The `--config`/`-c` flag (`pflag.StringP`) is command-line plumbing. The path it gives is part of the abstract source.
- `sync.Once` and the concurrent callers of `GetConfig` are not modelled. Only the sequential behaviour is: the first call loads, and later calls reuse the snapshot.
- `os.Stat` is the abstract `fileExists` predicate. Any `Stat` error, not only a missing file, counts as "does not exist".
- The `fmt.Printf` warnings are diagnostic output only and do not affect any returned value.
- `StrConv.Atoi` assumes a 64-bit Go `int`. On a 32-bit platform the range bound would be 2^31.
- Go strings are byte sequences; here they are `seq<char>`. Every literal involved is ASCII, so the prefix and comma tests are unaffected.
- `Config` is returned by value rather than as a Go `*Config`. `GetConfig`'s write of `Initialized` into the shared record is the record update in `GetConfig`.
