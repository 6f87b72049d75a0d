/** The configuration read from the environment, and its start-up validation. */
module Config {
  import opened Text
  import opened Values

  /** The priority thresholds: a score at or above `critical` is Critical, and so on down. */
  datatype Thresholds = Thresholds(critical: int, high: int, medium: int, low: int)

  /** Thresholds that make the priority step function monotone. */
  predicate Ordered(t: Thresholds) {
    t.critical >= t.high >= t.medium
  }

  /** The values the application reads from its environment that this model uses. */
  datatype Settings = Settings(
    sheetName: string,
    enablePushPlus: bool,
    enableDingTalk: bool,
    pushPlusToken: string,
    dingTalkWebhook: string,
    enableInstantAlerts: bool,
    enableClaude: bool,
    anthropicKey: string,
    thresholds: Thresholds,
    maxInstantAlertsPerHour: int)

  /** The environment: variable name to value. */
  type Env = map<string, string>

  /** `os.getenv(name, default)` */
  function GetEnv(env: Env, name: string, default: string): string {
    if name in env then env[name] else default
  }

  /** `os.getenv(name, default).lower() == 'true'`, for a default of `'true'` (`default`) or `'false'`. */
  function EnvFlag(env: Env, name: string, default: bool): (b: bool)
    ensures name !in env ==> b == default
    ensures name in env ==> (b <==> Lower(env[name]) == "true")
  {
    if name in env then Lower(env[name]) == "true" else default
  }

  /** `int(os.getenv(name, str(default)))`; `None` where `int()` raises. The source writes each default
      as a decimal string literal; reading it back gives the number (`EnvIntUnset`). */
  function EnvInt(env: Env, name: string, default: int): (r: Option<int>)
    ensures r == ParseInt(GetEnv(env, name, IntToDecimal(default)))
  {
    ParseIntDecimal(default);
    if name in env then ParseInt(env[name]) else Some(default)
  }

  /** An unset integer setting takes its default. */
  lemma EnvIntUnset(env: Env, name: string, default: int)
    requires name !in env
    ensures EnvInt(env, name, default) == Some(default)
  {
  }

  /** The four `*_THRESHOLD` settings; `None` when one of them does not parse. */
  function ReadThresholds(env: Env): (r: Option<Thresholds>)
    ensures r.Some? <==>
      && EnvInt(env, "CRITICAL_THRESHOLD", 90).Some? && EnvInt(env, "HIGH_THRESHOLD", 85).Some?
      && EnvInt(env, "MEDIUM_THRESHOLD", 70).Some? && EnvInt(env, "LOW_THRESHOLD", 0).Some?
  {
    var critical := EnvInt(env, "CRITICAL_THRESHOLD", 90);
    var high := EnvInt(env, "HIGH_THRESHOLD", 85);
    var medium := EnvInt(env, "MEDIUM_THRESHOLD", 70);
    var low := EnvInt(env, "LOW_THRESHOLD", 0);
    if critical.None? || high.None? || medium.None? || low.None? then None
    else Some(Thresholds(critical.value, high.value, medium.value, low.value))
  }

  /** The integer settings the model reads no further: `BATCH_INTERVAL`, `FETCH_TIMEOUT`, `MAX_RETRIES`
      and `MAX_RECORDS_PER_RUN`. Their `int()` still runs at import time and can raise. */
  predicate OtherIntsParse(env: Env) {
    && EnvInt(env, "BATCH_INTERVAL", 300).Some?
    && EnvInt(env, "FETCH_TIMEOUT", 30).Some?
    && EnvInt(env, "MAX_RETRIES", 3).Some?
    && EnvInt(env, "MAX_RECORDS_PER_RUN", 100).Some?
  }

  /** Reading the environment at import time; `None` when one of the integer settings does not parse. */
  function LoadSettings(env: Env): (r: Option<Settings>)
    ensures r.Some? <==>
      ReadThresholds(env).Some? && EnvInt(env, "MAX_INSTANT_ALERTS_PER_HOUR", 20).Some? && OtherIntsParse(env)
    ensures r.Some? ==> r.value.sheetName == GetEnv(env, "GOOGLE_SHEET_NAME", "幼儿园商机追踪")
  {
    var thresholds := ReadThresholds(env);
    var maxInstant := EnvInt(env, "MAX_INSTANT_ALERTS_PER_HOUR", 20);
    if thresholds.None? || maxInstant.None? || !OtherIntsParse(env) then None
    else
      Some(Settings(
        GetEnv(env, "GOOGLE_SHEET_NAME", "幼儿园商机追踪"),
        EnvFlag(env, "ENABLE_PUSHPLUS", true),
        EnvFlag(env, "ENABLE_DINGTALK", true),
        GetEnv(env, "PUSHPLUS_TOKEN", ""),
        GetEnv(env, "DINGTALK_WEBHOOK", ""),
        EnvFlag(env, "ENABLE_INSTANT_ALERTS", true),
        EnvFlag(env, "ENABLE_CLAUDE_AI", true),
        GetEnv(env, "ANTHROPIC_API_KEY", ""),
        thresholds.value,
        maxInstant.value))
  }

  const DefaultThresholds := Thresholds(90, 85, 70, 0)

  /** With no threshold set, the thresholds are Critical 90, High 85, Medium 70 and Low 0. */
  lemma DefaultThresholdValues(env: Env)
    requires env == map[]
    ensures ReadThresholds(env) == Some(DefaultThresholds)
  {
  }

  /** The configuration of an empty environment. */
  const Defaults := Settings("幼儿园商机追踪", true, true, "", "", true, true, "", DefaultThresholds, 20)

  /** With nothing set, the thresholds are the defaults, at most 20 instant alerts go out per hour,
      both channels, instant alerts and the AI scorer are on, and no credential is set. */
  lemma DefaultSettings(env: Env)
    requires env == map[]
    ensures LoadSettings(env) == Some(Defaults)
  {
    DefaultThresholdValues(env);
    EnvIntUnset(env, "MAX_INSTANT_ALERTS_PER_HOUR", 20);
    EnvIntUnset(env, "BATCH_INTERVAL", 300);
    EnvIntUnset(env, "FETCH_TIMEOUT", 30);
    EnvIntUnset(env, "MAX_RETRIES", 3);
    EnvIntUnset(env, "MAX_RECORDS_PER_RUN", 100);
    var r := LoadSettings(env);
    assert r.Some?;
    var s := r.value;
    assert s.thresholds == DefaultThresholds && s.maxInstantAlertsPerHour == 20;
    assert s.sheetName == "幼儿园商机追踪";
    assert s.enablePushPlus && s.enableDingTalk && s.enableInstantAlerts && s.enableClaude;
    assert s.pushPlusToken == "" && s.dingTalkWebhook == "" && s.anthropicKey == "";
  }

  /** The default thresholds are ordered, so the default priority function is monotone. */
  lemma DefaultThresholdsOrdered()
    ensures Ordered(DefaultThresholds)
  {
  }

  /** The problems `Config.validate` reports, in the order it checks them. */
  datatype ConfigError =
    | MissingSheetName
    | NoChannel
    | MissingPushPlusToken
    | MissingDingTalkWebhook
    | MissingApiKey

  /** The position of each check in `validate`. */
  function Rank(e: ConfigError): nat {
    match e
    case MissingSheetName => 0
    case NoChannel => 1
    case MissingPushPlusToken => 2
    case MissingDingTalkWebhook => 3
    case MissingApiKey => 4
  }

  /** The condition under which `validate` reports `e`. */
  predicate Fails(s: Settings, e: ConfigError) {
    match e
    case MissingSheetName => s.sheetName == ""
    case NoChannel => !s.enablePushPlus && !s.enableDingTalk
    case MissingPushPlusToken => s.enablePushPlus && s.pushPlusToken == ""
    case MissingDingTalkWebhook => s.enableDingTalk && s.dingTalkWebhook == ""
    case MissingApiKey => s.enableClaude && s.anthropicKey == ""
  }

  function If(b: bool, e: ConfigError): seq<ConfigError> {
    if b then [e] else []
  }

  /** `Config.validate()`: each failed condition appends one error, in a fixed order. */
  function Validate(s: Settings): (errs: seq<ConfigError>)
    ensures forall e :: e in errs <==> Fails(s, e)
    ensures forall i, j :: 0 <= i < j < |errs| ==> Rank(errs[i]) < Rank(errs[j])
  {
    If(s.sheetName == "", MissingSheetName)
    + If(!s.enablePushPlus && !s.enableDingTalk, NoChannel)
    + If(s.enablePushPlus && s.pushPlusToken == "", MissingPushPlusToken)
    + If(s.enableDingTalk && s.dingTalkWebhook == "", MissingDingTalkWebhook)
    + If(s.enableClaude && s.anthropicKey == "", MissingApiKey)
  }

  /** `validate()` returns `[]` exactly when none of the five conditions holds. */
  lemma ValidateEmptyIff(s: Settings)
    ensures Validate(s) == [] <==>
      !Fails(s, MissingSheetName) && !Fails(s, NoChannel) && !Fails(s, MissingPushPlusToken)
      && !Fails(s, MissingDingTalkWebhook) && !Fails(s, MissingApiKey)
  {
    var errs := Validate(s);
    if errs != [] {
      assert Fails(s, errs[0]);
    }
  }

  /** A configuration with no channel enabled cannot also be missing a channel credential,
      so `validate` never reports more than four problems. */
  lemma {:induction false} ValidateAtMostFour(s: Settings)
    ensures |Validate(s)| <= 4
    ensures NoChannel in Validate(s) ==> MissingPushPlusToken !in Validate(s) && MissingDingTalkWebhook !in Validate(s)
  {
    var errs := Validate(s);
    var ranks := set e | e in errs :: Rank(e);
    RanksDistinct(errs);
    if NoChannel in errs {
      assert ranks <= {0, 1, 4};
      assert |ranks| <= |{0, 1, 4}|;
    } else {
      assert ranks <= {0, 2, 3, 4};
      assert |ranks| <= |{0, 2, 3, 4}|;
    }
  }

  /** A strictly rank-ordered list has as many distinct ranks as elements. */
  lemma {:induction false} RanksDistinct(errs: seq<ConfigError>)
    requires forall i, j :: 0 <= i < j < |errs| ==> Rank(errs[i]) < Rank(errs[j])
    ensures |set e | e in errs :: Rank(e)| == |errs|
  {
    if errs != [] {
      var rest := errs[1..];
      RanksDistinct(rest);
      assert (set e | e in errs :: Rank(e)) == {Rank(errs[0])} + (set e | e in rest :: Rank(e));
      assert Rank(errs[0]) !in (set e | e in rest :: Rank(e));
    }
  }

  /** With a sheet name and every service enabled, `validate` reports exactly the missing credentials, in order. */
  lemma ValidateAllEnabled(s: Settings)
    requires s.sheetName != "" && s.enablePushPlus && s.enableDingTalk && s.enableClaude
    ensures Validate(s) ==
      (if s.pushPlusToken == "" then [MissingPushPlusToken] else [])
      + (if s.dingTalkWebhook == "" then [MissingDingTalkWebhook] else [])
      + (if s.anthropicKey == "" then [MissingApiKey] else [])
  {
  }

  /** The default configuration reports the three missing credentials and nothing else. */
  lemma DefaultsNeedCredentials()
    ensures Validate(Defaults) == [MissingPushPlusToken, MissingDingTalkWebhook, MissingApiKey]
  {
    ValidateAllEnabled(Defaults);
  }
}
