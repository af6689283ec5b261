/**
 * xilma/config.py: the settings read from the environment at startup. The
 * environment is a map from variable names to values; `os.getenv` is a lookup.
 */
module Config {
  import opened Wrappers
  import opened Errors
  import Text

  /** `Settings`, the frozen record `load_settings` builds. */
  datatype Settings = Settings(
    telegramBotToken: string,
    adminUserIds: set<int>,
    avalaiApiKey: string,
    avalaiBaseUrl: string,
    defaultProvider: string,
    defaultModel: string,
    fallbackProvider: Option<string>,
    fallbackModel: Option<string>,
    requestTimeout: real,
    maxRetries: int,
    retryBackoff: real,
    temperature: Option<real>,
    maxTokens: Option<int>,
    topP: Option<real>,
    maxHistoryMessages: int,
    sponsorChannels: seq<string>,
    sponsorChannelsFile: string,
    logLevel: string,
    logFormat: string,
    anonymizeUserIds: bool)

  /** `not value` on an optional string. */
  predicate Blank(value: Option<string>) {
    value.None? || value.value == ""
  }

  /** `_split_csv`: nothing for `None` or `""`; otherwise the trimmed, non-empty comma pieces in order. */
  function SplitCsv(value: Option<string>): (r: seq<string>)
    ensures Blank(value) ==> r == []
    ensures forall i :: 0 <= i < |r| ==> r[i] != [] && ',' !in r[i]
  {
    if Blank(value) then [] else Text.CsvItems(value.value)
  }

  /** Every piece is already trimmed, and a comma joins two values' pieces. */
  lemma SplitCsvMeaning(a: string, b: string)
    ensures forall x :: x in SplitCsv(Some(a)) ==> Text.Strip(x) == x
    ensures SplitCsv(Some(a + [','] + b)) == SplitCsv(Some(a)) + SplitCsv(Some(b))
  {
    SplitCsvSome(a);
    SplitCsvSome(b);
    SplitCsvSome(a + [','] + b);
    Text.NonBlankStripped(Text.Split(a, ','));
    Text.CsvItemsAppend(a, b);
  }

  lemma SplitCsvSome(a: string)
    ensures SplitCsv(Some(a)) == Text.CsvItems(a)
  {
    if a == "" {
      assert Text.Split(a, ',') == [[]];
      assert Text.NonBlank([[]]) == [];
    }
  }

  /** The raw admin ids: the primary one first, when set, then the CSV items. */
  function AdminRaws(primary: Option<string>, additional: Option<string>): (r: seq<string>)
    ensures !Blank(primary) ==> |r| >= 1 && r[0] == primary.value
  {
    (if Blank(primary) then [] else [primary.value]) + SplitCsv(additional)
  }

  /** `int(raw)` of each raw value, in order. */
  function Parses(raws: seq<string>): (r: seq<Option<int>>)
    ensures |r| == |raws| && forall i :: 0 <= i < |raws| ==> r[i] == Text.ParseInt(raws[i])
  {
    seq(|raws|, i requires 0 <= i < |raws| => Text.ParseInt(raws[i]))
  }

  /** The set of the parsed values, or None when any parse failed. */
  function Collect(parses: seq<Option<int>>): (r: Option<set<int>>)
    ensures r.Some? ==> forall i :: 0 <= i < |parses| ==> parses[i].Some? && parses[i].value in r.value
  {
    if parses == [] then Some({})
    else
      var init := parses[..|parses| - 1];
      match (Collect(init), parses[|parses| - 1])
      case (Some(ids), Some(v)) =>
        assert forall i :: 0 <= i < |init| ==> parses[i] == init[i];
        Some(ids + {v})
      case _ => None
  }

  lemma CollectSnoc(parses: seq<Option<int>>, i: nat)
    requires i < |parses| && Collect(parses[..i]).Some? && parses[i].Some?
    ensures Collect(parses[..i + 1]) == Some(Collect(parses[..i]).value + {parses[i].value})
  {
    assert parses[..i + 1][..i] == parses[..i];
  }

  /** The values of the successful parses. */
  ghost function Values(parses: seq<Option<int>>): set<int> {
    set i | 0 <= i < |parses| && parses[i].Some? :: parses[i].value
  }

  /** The ids are exactly the parsed values; collecting fails exactly when some parse failed. */
  lemma {:induction false} CollectMeaning(parses: seq<Option<int>>)
    ensures Collect(parses).Some? <==> forall i :: 0 <= i < |parses| ==> parses[i].Some?
    ensures Collect(parses).Some? ==> Collect(parses).value == Values(parses)
  {
    if parses != [] {
      var init := parses[..|parses| - 1];
      var last := parses[|parses| - 1];
      CollectMeaning(init);
      assert forall i :: 0 <= i < |init| ==> parses[i] == init[i];
      if Collect(init).Some? && last.Some? {
        assert Collect(parses) == Some(Collect(init).value + {last.value});
        ValuesSnoc(parses);
      } else {
        assert Collect(parses) == None;
      }
    }
  }

  lemma ValuesSnoc(parses: seq<Option<int>>)
    requires parses != [] && parses[|parses| - 1].Some?
    ensures Values(parses) == Values(parses[..|parses| - 1]) + {parses[|parses| - 1].value}
  {
    var init := parses[..|parses| - 1];
    var last := parses[|parses| - 1].value;
    forall v | v in Values(parses) ensures v in Values(init) + {last} {
      var i :| 0 <= i < |parses| && parses[i].Some? && parses[i].value == v;
      if i < |init| {
        assert init[i] == parses[i];
      }
    }
    forall v | v in Values(init) ensures v in Values(parses) {
      var i :| 0 <= i < |init| && init[i].Some? && init[i].value == v;
      assert parses[i] == init[i];
    }
  }

  /** `_parse_admin_ids`: any id that is not an integer stops startup. */
  function ParseAdminIds(primary: Option<string>, additional: Option<string>): (r: Result<set<int>, Exception>)
    ensures r.Err? ==> r.error == SystemExit(AdminIdsNotIntegers)
  {
    match Collect(Parses(AdminRaws(primary, additional)))
    case Some(ids) => Ok(ids)
    case None => Err(SystemExit(AdminIdsNotIntegers))
  }

  /**
   * The ids are the values of the raw ids, and parsing fails exactly when one of
   * them is not an integer.
   */
  lemma ParseAdminIdsMeaning(primary: Option<string>, additional: Option<string>)
    ensures ParseAdminIds(primary, additional).Ok?
      <==> forall raw :: raw in AdminRaws(primary, additional) ==> Text.ParseInt(raw).Some?
    ensures ParseAdminIds(primary, additional).Ok? ==>
      ParseAdminIds(primary, additional).value == ParsedIds(AdminRaws(primary, additional))
  {
    ParseAllMeaning(AdminRaws(primary, additional));
  }

  /** The values of the raw ids that parse. */
  ghost function ParsedIds(raws: seq<string>): set<int> {
    set raw | raw in raws && Text.ParseInt(raw).Some? :: Text.ParseInt(raw).value
  }

  lemma ParseAllMeaning(raws: seq<string>)
    ensures Collect(Parses(raws)).Some? <==> forall raw :: raw in raws ==> Text.ParseInt(raw).Some?
    ensures Collect(Parses(raws)).Some? ==> Collect(Parses(raws)).value == ParsedIds(raws)
  {
    var parses := Parses(raws);
    CollectMeaning(parses);
    if Collect(parses).Some? {
      var ids := ParsedIds(raws);
      forall v | v in Values(parses) ensures v in ids {
        var i :| 0 <= i < |parses| && parses[i].Some? && parses[i].value == v;
        assert raws[i] in raws;
      }
      forall v | v in ids ensures v in Values(parses) {
        var raw :| raw in raws && Text.ParseInt(raw).Some? && Text.ParseInt(raw).value == v;
        var i :| 0 <= i < |raws| && raws[i] == raw;
        assert parses[i].Some? && parses[i].value == v;
      }
    } else {
      var i :| 0 <= i < |parses| && parses[i].None?;
      assert raws[i] in raws;
    }
  }

  /** A single admin id written as an integer is read back as that id. */
  lemma ParseAdminIdsSingle(id: int)
    ensures ParseAdminIds(Some(Text.IntToDecimal(id)), None) == Ok({id})
  {
    Text.IntToDecimalRoundTrip(id);
    var raws := AdminRaws(Some(Text.IntToDecimal(id)), None);
    assert raws == [Text.IntToDecimal(id)] by {
      assert !Blank(Some(Text.IntToDecimal(id)));
      assert SplitCsv(None) == [];
    }
    var parses := Parses(raws);
    assert parses == [Some(id)];
    assert Collect(parses) == Some({id}) by {
      assert parses[..0] == [];
      assert Collect([]) == Some({});
      assert parses[0] == Some(id);
      assert {} + {id} == {id};
    }
  }

  /** The loop of `_parse_admin_ids`, adding each parsed id to the set. */
  method ParseAdminIdsLoop(primary: Option<string>, additional: Option<string>) returns (r: Result<set<int>, Exception>)
    ensures r == ParseAdminIds(primary, additional)
  {
    var rawValues: seq<string> := [];
    if !Blank(primary) {
      rawValues := rawValues + [primary.value];
    }
    rawValues := rawValues + SplitCsv(additional);
    assert rawValues == AdminRaws(primary, additional);
    var ids := CollectIds(rawValues);
    if ids.None? {
      return Err(SystemExit(AdminIdsNotIntegers));
    }
    r := Ok(ids.value);
  }

  /** `admin_ids.add(int(raw))` for each raw id in turn; `None` at the first one that is not an integer. */
  method CollectIds(rawValues: seq<string>) returns (ids: Option<set<int>>)
    ensures ids == Collect(Parses(rawValues))
  {
    ghost var parses := Parses(rawValues);
    var adminIds: set<int> := {};
    for i := 0 to |rawValues|
      invariant Collect(parses[..i]) == Some(adminIds)
    {
      var parsed := Text.ParseInt(rawValues[i]);
      assert parsed == parses[i];
      if parsed.None? {
        CollectMeaning(parses);
        return None;
      }
      CollectSnoc(parses, i);
      adminIds := adminIds + {parsed.value};
    }
    assert parses[..|rawValues|] == parses;
    ids := Some(adminIds);
  }

  /** `_get_float`: `None` and `""` are unset; anything else must parse. */
  function GetFloat(value: Option<string>): (r: Result<Option<real>, Exception>)
    ensures r == Ok(None) <==> value.None? || value.value == ""
    ensures r.Err? <==> !Blank(value) && Text.ParseFloat(value.value).None?
    ensures r.Err? ==> r.error == SystemExit(InvalidFloat(value.value))
    ensures r.Ok? && r.value.Some? ==> Text.ParseFloat(value.value) == r.value
  {
    if Blank(value) then Ok(None)
    else
      match Text.ParseFloat(value.value)
      case Some(f) => Ok(Some(f))
      case None => Err(SystemExit(InvalidFloat(value.value)))
  }

  /** `_get_int`: `None` and `""` are unset; anything else must parse. */
  function GetInt(value: Option<string>): (r: Result<Option<int>, Exception>)
    ensures r == Ok(None) <==> value.None? || value.value == ""
    ensures r.Err? <==> !Blank(value) && Text.ParseInt(value.value).None?
    ensures r.Err? ==> r.error == SystemExit(InvalidInteger(value.value))
    ensures r.Ok? && r.value.Some? ==> Text.ParseInt(value.value) == r.value
  {
    if Blank(value) then Ok(None)
    else
      match Text.ParseInt(value.value)
      case Some(n) => Ok(Some(n))
      case None => Err(SystemExit(InvalidInteger(value.value)))
  }

  /** The spellings `_get_bool` reads as true. */
  const TrueWords: set<string> := {"1", "true", "yes", "on"}

  /** `_get_bool`: the default only for `None`; otherwise true exactly for a true word, ignoring case and surrounding space. */
  function GetBool(value: Option<string>, default: bool): (r: bool)
    ensures value.None? ==> r == default
    ensures value.Some? ==> (r <==> Text.Lower(Text.Strip(value.value)) in TrueWords)
  {
    if value.None? then default else Text.Lower(Text.Strip(value.value)) in TrueWords
  }

  /** A set value overrides the default, even when it is not a true word; a blank value is false. */
  lemma GetBoolSetValue(s: string, default: bool)
    ensures GetBool(Some(s), default) == GetBool(Some(s), !default)
    ensures Text.Strip(s) == [] ==> !GetBool(Some(s), default)
  {
    var t := Text.Strip(s);
    if t == [] {
      assert Text.Lower(t) == [];
    }
  }

  function Getenv(env: map<string, string>, key: string): Option<string> {
    if key in env then Some(env[key]) else None
  }

  function GetenvOr(env: map<string, string>, key: string, default: string): string {
    if key in env then env[key] else default
  }

  function Max(a: int, b: int): int {
    if a < b then b else a
  }

  function MaxReal(a: real, b: real): real {
    if a < b then b else a
  }

  /** Python's `value or None`. */
  function OrNone(value: Option<string>): (r: Option<string>)
    ensures r.Some? ==> r.value != ""
  {
    if Blank(value) then None else value
  }

  /**
   * `load_settings`: the checks run in source order; a missing token, a bad admin
   * id or a missing API key stops startup; a malformed timeout, retry count,
   * back-off or history limit escapes as `ValueError`; a malformed sampling
   * option stops startup. Counts and the back-off are clamped at zero.
   */
  function LoadSettings(env: map<string, string>): (r: Result<Settings, Exception>)
    ensures Blank(Getenv(env, "TELEGRAM_BOT_TOKEN")) ==> r == Err(SystemExit(TokenNotSet))
    ensures (!Blank(Getenv(env, "TELEGRAM_BOT_TOKEN"))
             && ParseAdminIds(Getenv(env, "ADMIN_USER_ID"), Getenv(env, "ADMIN_USER_IDS")).Err?)
            ==> r == Err(SystemExit(AdminIdsNotIntegers))
    ensures (!Blank(Getenv(env, "TELEGRAM_BOT_TOKEN"))
             && ParseAdminIds(Getenv(env, "ADMIN_USER_ID"), Getenv(env, "ADMIN_USER_IDS")).Ok?
             && Blank(Getenv(env, "AVALAI_API_KEY")))
            ==> r == Err(SystemExit(ApiKeyNotSet))
    ensures r.Ok? ==> var s := r.value;
      && s.telegramBotToken != "" && s.avalaiApiKey != ""
      && s.adminUserIds == ParseAdminIds(Getenv(env, "ADMIN_USER_ID"), Getenv(env, "ADMIN_USER_IDS")).value
      && s.maxRetries >= 0 && s.retryBackoff >= 0.0 && s.maxHistoryMessages >= 0
      && s.fallbackProvider == OrNone(Getenv(env, "FALLBACK_PROVIDER"))
      && s.fallbackModel == OrNone(Getenv(env, "FALLBACK_MODEL"))
      && s.sponsorChannels == SplitCsv(Getenv(env, "SPONSOR_CHANNELS"))
    ensures r.Ok? ==>
      && TuningOf(env).Ok?
      && r.value == Assemble(env, Getenv(env, "TELEGRAM_BOT_TOKEN").value,
                             ParseAdminIds(Getenv(env, "ADMIN_USER_ID"), Getenv(env, "ADMIN_USER_IDS")).value,
                             Getenv(env, "AVALAI_API_KEY").value, TuningOf(env).value)
    ensures (!Blank(Getenv(env, "TELEGRAM_BOT_TOKEN"))
             && ParseAdminIds(Getenv(env, "ADMIN_USER_ID"), Getenv(env, "ADMIN_USER_IDS")).Ok?
             && !Blank(Getenv(env, "AVALAI_API_KEY")))
            ==> (r.Ok? <==> TuningOf(env).Ok?) && (TuningOf(env).Err? ==> r == Err(TuningOf(env).error))
  {
    var token := Getenv(env, "TELEGRAM_BOT_TOKEN");
    if Blank(token) then Err(SystemExit(TokenNotSet))
    else
      match ParseAdminIds(Getenv(env, "ADMIN_USER_ID"), Getenv(env, "ADMIN_USER_IDS"))
      case Err(e) => Err(e)
      case Ok(adminIds) =>
        var apiKey := Getenv(env, "AVALAI_API_KEY");
        if Blank(apiKey) then Err(SystemExit(ApiKeyNotSet))
        else
          match TuningOf(env)
          case Err(e) => Err(e)
          case Ok(t) => Ok(Assemble(env, token.value, adminIds, apiKey.value, t))
  }

  /** The numeric settings, as read, before clamping. */
  datatype Tuning = Tuning(
    timeout: real, retries: int, backoff: real,
    temperature: Option<real>, maxTokens: Option<int>, topP: Option<real>,
    history: int)

  /**
   * The numeric part of `load_settings`, in source order: the timeout, retry
   * count and back-off with `float`/`int` (a `ValueError` escapes), then the
   * sampling options with `_get_float`/`_get_int`, then the history limit.
   */
  function ReadTuning(timeoutText: string, retriesText: string, backoffText: string,
                      temperature: Option<string>, maxTokens: Option<string>, topP: Option<string>,
                      historyText: string): (r: Result<Tuning, Exception>)
    ensures r.Ok? <==> (Text.ParseFloat(timeoutText).Some? && Text.ParseInt(retriesText).Some?
                        && Text.ParseFloat(backoffText).Some? && GetFloat(temperature).Ok?
                        && GetInt(maxTokens).Ok? && GetFloat(topP).Ok? && Text.ParseInt(historyText).Some?)
    ensures r.Ok? ==> (Text.ParseFloat(timeoutText) == Some(r.value.timeout)
                       && Text.ParseInt(retriesText) == Some(r.value.retries)
                       && Text.ParseFloat(backoffText) == Some(r.value.backoff)
                       && GetFloat(temperature) == Ok(r.value.temperature)
                       && GetInt(maxTokens) == Ok(r.value.maxTokens)
                       && GetFloat(topP) == Ok(r.value.topP)
                       && Text.ParseInt(historyText) == Some(r.value.history))
    ensures Text.ParseFloat(timeoutText).None? ==> r == Err(ValueError(timeoutText))
  {
    match Text.ParseFloat(timeoutText)
    case None => Err(ValueError(timeoutText))
    case Some(timeout) =>
    match Text.ParseInt(retriesText)
    case None => Err(ValueError(retriesText))
    case Some(retries) =>
    match Text.ParseFloat(backoffText)
    case None => Err(ValueError(backoffText))
    case Some(backoff) =>
    match GetFloat(temperature)
    case Err(e) => Err(e)
    case Ok(temperature) =>
    match GetInt(maxTokens)
    case Err(e) => Err(e)
    case Ok(maxTokens) =>
    match GetFloat(topP)
    case Err(e) => Err(e)
    case Ok(topP) =>
    match Text.ParseInt(historyText)
    case None => Err(ValueError(historyText))
    case Some(history) =>
    Ok(Tuning(timeout, retries, backoff, temperature, maxTokens, topP, history))
  }

  /** The numeric settings of an environment, with the defaults `load_settings` passes to `os.getenv`. */
  function TuningOf(env: map<string, string>): Result<Tuning, Exception> {
    ReadTuning(GetenvOr(env, "REQUEST_TIMEOUT", "30"), GetenvOr(env, "MAX_RETRIES", "1"),
               GetenvOr(env, "RETRY_BACKOFF", "0.5"), Getenv(env, "TEMPERATURE"),
               Getenv(env, "MAX_TOKENS"), Getenv(env, "TOP_P"),
               GetenvOr(env, "MAX_HISTORY_MESSAGES", "12"))
  }

  /** The `Settings` record of `load_settings` from the values read so far; the rest are plain lookups. */
  function Assemble(env: map<string, string>, token: string, adminIds: set<int>, apiKey: string, t: Tuning): (s: Settings)
    ensures s.telegramBotToken == token && s.adminUserIds == adminIds && s.avalaiApiKey == apiKey
    // `max(0, ...)`: a negative value becomes zero, any other is kept
    ensures s.maxRetries >= 0 && (t.retries >= 0 ==> s.maxRetries == t.retries) && (t.retries < 0 ==> s.maxRetries == 0)
    ensures s.retryBackoff >= 0.0 && (t.backoff >= 0.0 ==> s.retryBackoff == t.backoff) && (t.backoff < 0.0 ==> s.retryBackoff == 0.0)
    ensures s.maxHistoryMessages >= 0 && (t.history >= 0 ==> s.maxHistoryMessages == t.history)
            && (t.history < 0 ==> s.maxHistoryMessages == 0)
    // the timeout and sampling options are not clamped
    ensures s.requestTimeout == t.timeout && s.temperature == t.temperature && s.maxTokens == t.maxTokens && s.topP == t.topP
    // a variable that is set is taken as is; an unset one gives the default
    ensures "AVALAI_BASE_URL" in env ==> s.avalaiBaseUrl == env["AVALAI_BASE_URL"]
    ensures "AVALAI_BASE_URL" !in env ==> s.avalaiBaseUrl == "https://api.avalai.ir"
    ensures "DEFAULT_PROVIDER" in env ==> s.defaultProvider == env["DEFAULT_PROVIDER"]
    ensures "DEFAULT_PROVIDER" !in env ==> s.defaultProvider == "avalai"
    ensures "DEFAULT_MODEL" in env ==> s.defaultModel == env["DEFAULT_MODEL"]
    ensures "DEFAULT_MODEL" !in env ==> s.defaultModel == "gpt-4o"
    ensures "SPONSOR_CHANNELS_FILE" in env ==> s.sponsorChannelsFile == env["SPONSOR_CHANNELS_FILE"]
    ensures "SPONSOR_CHANNELS_FILE" !in env ==> s.sponsorChannelsFile == "sponsors.json"
    ensures "LOG_LEVEL" in env ==> s.logLevel == env["LOG_LEVEL"]
    ensures "LOG_LEVEL" !in env ==> s.logLevel == "INFO"
    ensures "LOG_FORMAT" in env ==> s.logFormat == env["LOG_FORMAT"]
    ensures "LOG_FORMAT" !in env ==> s.logFormat == "json"
    ensures "LOG_ANONYMIZE_USER_IDS" !in env ==> s.anonymizeUserIds
    ensures "LOG_ANONYMIZE_USER_IDS" in env ==>
              (s.anonymizeUserIds <==> Text.Lower(Text.Strip(env["LOG_ANONYMIZE_USER_IDS"])) in TrueWords)
    ensures s.fallbackProvider == OrNone(Getenv(env, "FALLBACK_PROVIDER"))
    ensures s.fallbackModel == OrNone(Getenv(env, "FALLBACK_MODEL"))
    ensures s.sponsorChannels == SplitCsv(Getenv(env, "SPONSOR_CHANNELS"))
  {
    Settings(
      token, adminIds, apiKey,
      GetenvOr(env, "AVALAI_BASE_URL", "https://api.avalai.ir"),
      GetenvOr(env, "DEFAULT_PROVIDER", "avalai"),
      GetenvOr(env, "DEFAULT_MODEL", "gpt-4o"),
      OrNone(Getenv(env, "FALLBACK_PROVIDER")),
      OrNone(Getenv(env, "FALLBACK_MODEL")),
      t.timeout, Max(0, t.retries), MaxReal(0.0, t.backoff),
      t.temperature, t.maxTokens, t.topP,
      Max(0, t.history),
      SplitCsv(Getenv(env, "SPONSOR_CHANNELS")),
      GetenvOr(env, "SPONSOR_CHANNELS_FILE", "sponsors.json"),
      GetenvOr(env, "LOG_LEVEL", "INFO"),
      GetenvOr(env, "LOG_FORMAT", "json"),
      GetBool(Getenv(env, "LOG_ANONYMIZE_USER_IDS"), true))
  }

  lemma ParseThirty(s: string)
    requires |s| == 2 && s[0] == '3' && s[1] == '0'
    ensures Text.ParseFloat(s) == Some(30.0)
  {
    assert Text.IsDigits(s);
    Text.ParseFloatDigits(s);
    Text.TwoDigits(s);
  }

  lemma ParseOne(s: string)
    requires |s| == 1 && s[0] == '1'
    ensures Text.ParseInt(s) == Some(1)
  {
    assert Text.IsDigits(s);
    Text.ParseIntDigits(s);
    assert s[..0] == [];
  }

  lemma ParseHalf(s: string)
    requires |s| == 3 && s[0] == '0' && s[1] == '.' && s[2] == '5'
    ensures Text.ParseFloat(s) == Some(0.5)
  {
    assert Text.NoSpace(s);
    Text.ParseFloatUnsigned(s);
    assert Text.IndexOf(s, '.') == 1;
    var whole, frac := s[..1], s[2..];
    assert whole[..0] == [] && whole[0] == '0';
    assert frac[..0] == [] && frac[0] == '5';
    assert Text.DigitsValue(whole) == 0 && Text.DigitsValue(frac) == 5;
  }

  lemma ParseTwelve(s: string)
    requires |s| == 2 && s[0] == '1' && s[1] == '2'
    ensures Text.ParseInt(s) == Some(12)
  {
    assert Text.IsDigits(s);
    Text.ParseIntDigits(s);
    Text.TwoDigits(s);
  }

  /** With only the token and the API key set, every other setting takes its default. */
  lemma LoadSettingsDefaults(token: string, apiKey: string)
    requires token != "" && apiKey != ""
    ensures LoadSettings(map["TELEGRAM_BOT_TOKEN" := token, "AVALAI_API_KEY" := apiKey])
         == Ok(Settings(token, {}, apiKey, "https://api.avalai.ir", "avalai", "gpt-4o", None, None,
                        30.0, 1, 0.5, None, None, None, 12, [], "sponsors.json", "INFO", "json", true))
  {
    var env := map["TELEGRAM_BOT_TOKEN" := token, "AVALAI_API_KEY" := apiKey];
    LoadSettingsOnly(env, token, apiKey);
  }

  lemma LoadSettingsOnly(env: map<string, string>, token: string, apiKey: string)
    requires token != "" && apiKey != ""
    requires env.Keys == {"TELEGRAM_BOT_TOKEN", "AVALAI_API_KEY"}
    requires env["TELEGRAM_BOT_TOKEN"] == token && env["AVALAI_API_KEY"] == apiKey
    ensures LoadSettings(env)
         == Ok(Settings(token, {}, apiKey, "https://api.avalai.ir", "avalai", "gpt-4o", None, None,
                        30.0, 1, 0.5, None, None, None, 12, [], "sponsors.json", "INFO", "json", true))
  {
    DefaultsAssembled(env, token, apiKey);
    DefaultAssembly(env, token, apiKey);
  }

  lemma DefaultsAssembled(env: map<string, string>, token: string, apiKey: string)
    requires token != "" && apiKey != ""
    requires env.Keys == {"TELEGRAM_BOT_TOKEN", "AVALAI_API_KEY"}
    requires env["TELEGRAM_BOT_TOKEN"] == token && env["AVALAI_API_KEY"] == apiKey
    ensures LoadSettings(env) == Ok(Assemble(env, token, {}, apiKey, Tuning(30.0, 1, 0.5, None, None, None, 12)))
  {
    DefaultAdminIds(env);
    DefaultLookups(env);
    DefaultTuning(GetenvOr(env, "REQUEST_TIMEOUT", "30"), GetenvOr(env, "MAX_RETRIES", "1"),
                  GetenvOr(env, "RETRY_BACKOFF", "0.5"), GetenvOr(env, "MAX_HISTORY_MESSAGES", "12"));
    assert TuningOf(env) == Ok(Tuning(30.0, 1, 0.5, None, None, None, 12));
  }

  lemma DefaultLookups(env: map<string, string>)
    requires env.Keys == {"TELEGRAM_BOT_TOKEN", "AVALAI_API_KEY"}
    ensures GetenvOr(env, "REQUEST_TIMEOUT", "30") == "30" && GetenvOr(env, "MAX_RETRIES", "1") == "1"
    ensures GetenvOr(env, "RETRY_BACKOFF", "0.5") == "0.5" && GetenvOr(env, "MAX_HISTORY_MESSAGES", "12") == "12"
    ensures Getenv(env, "TEMPERATURE") == None && Getenv(env, "MAX_TOKENS") == None && Getenv(env, "TOP_P") == None
  {
  }

  /** The default texts of the numeric settings read as 30, 1, 0.5 and 12. */
  lemma DefaultTuning(timeoutText: string, retriesText: string, backoffText: string, historyText: string)
    requires |timeoutText| == 2 && timeoutText[0] == '3' && timeoutText[1] == '0'
    requires |retriesText| == 1 && retriesText[0] == '1'
    requires |backoffText| == 3 && backoffText[0] == '0' && backoffText[1] == '.' && backoffText[2] == '5'
    requires |historyText| == 2 && historyText[0] == '1' && historyText[1] == '2'
    ensures ReadTuning(timeoutText, retriesText, backoffText, None, None, None, historyText)
         == Ok(Tuning(30.0, 1, 0.5, None, None, None, 12))
  {
    ParseThirty(timeoutText);
    ParseOne(retriesText);
    ParseHalf(backoffText);
    ParseTwelve(historyText);
    var r := ReadTuning(timeoutText, retriesText, backoffText, None, None, None, historyText);
    assert r.Ok?;
  }

  lemma DefaultAdminIds(env: map<string, string>)
    requires "ADMIN_USER_ID" !in env && "ADMIN_USER_IDS" !in env
    ensures ParseAdminIds(Getenv(env, "ADMIN_USER_ID"), Getenv(env, "ADMIN_USER_IDS")) == Ok({})
  {
    assert AdminRaws(None, None) == [];
    assert Parses([]) == [];
  }

  lemma DefaultAssembly(env: map<string, string>, token: string, apiKey: string)
    requires env.Keys == {"TELEGRAM_BOT_TOKEN", "AVALAI_API_KEY"}
    ensures Assemble(env, token, {}, apiKey, Tuning(30.0, 1, 0.5, None, None, None, 12))
         == Settings(token, {}, apiKey, "https://api.avalai.ir", "avalai", "gpt-4o", None, None,
                     30.0, 1, 0.5, None, None, None, 12, [], "sponsors.json", "INFO", "json", true)
  {
    assert SplitCsv(Getenv(env, "SPONSOR_CHANNELS")) == [];
  }
}
