/** The metrics section of the homeserver configuration: the `MetricsFlags`
    record, the reader that turns the configuration dictionary into typed
    settings, and the generator of the default `report_stats` line. */
module Metrics {
  import opened Wrappers
  import opened Json
  import opened PercentFormat

  const EnableMetricsKey := "enable_metrics"
  const ReportStatsKey := "report_stats"
  const ReportStatsEndpointKey := "report_stats_endpoint"
  const ReportStatsExcludeAliasListKey := "report_stats_exclude_alias_list"
  const MetricsPortKey := "metrics_port"
  const MetricsBindHostKey := "metrics_bind_host"
  const MetricsFlagsKey := "metrics_flags"
  const SentryKey := "sentry"
  const DsnKey := "dsn"
  const EnvironmentKey := "environment"
  const KnownServersKey := "known_servers"

  const DefaultReportStatsEndpoint := "https://matrix.org/report-usage-stats/push"
  const DefaultMetricsBindHost := "127.0.0.1"
  const ReportStatsTemplate := "report_stats: %s\n"
  const SentryDsnRequired := "sentry.dsn field is required when sentry integration is enabled"

  /** The configuration keys the reader looks at. */
  const RecognisedKeys: set<string> :=
    {EnableMetricsKey, ReportStatsKey, ReportStatsEndpointKey, ReportStatsExcludeAliasListKey,
     MetricsPortKey, MetricsBindHostKey, MetricsFlagsKey, SentryKey}

  /** The names of the fields of `MetricsFlags`. */
  const FlagNames: set<string> := {KnownServersKey}

  /** Why a call raised `TypeError`. */
  datatype TypeErrorReason =
    | NotAMapping          // `**x` applied to something that is not a dict
    | UnexpectedKeyword    // a keyword that is not a field of `MetricsFlags`
    | NotABool             // the `instance_of(bool)` validator of `known_servers`

  /** The exceptions reading the metrics section can raise. */
  datatype ConfigException =
    | ConfigError(message: string)
    | TypeError(reason: TypeErrorReason)
    | AttributeError       // `config["sentry"]` has no `.get`: it is not a dict
    | DependencyError      // the optional sentry dependency is not installed

  /** Optional metrics; every flag defaults to off. */
  datatype MetricsFlags = MetricsFlags(knownServers: bool)

  /** `MetricsFlags(**kw)`: keywords must be field names and `known_servers`
      must be a bool; an absent field takes its default, false. */
  function FlagsFromKwargs(kw: JsonDict): (r: Result<MetricsFlags, ConfigException>)
    ensures r.Ok? <==> kw.Keys <= FlagNames && (KnownServersKey in kw ==> kw[KnownServersKey].JBool?)
    ensures r.Ok? ==> (r.value.knownServers <==> KnownServersKey in kw && kw[KnownServersKey] == JBool(true))
    ensures !(kw.Keys <= FlagNames) ==> r == Err(TypeError(UnexpectedKeyword))
    ensures kw.Keys <= FlagNames && KnownServersKey in kw && !kw[KnownServersKey].JBool? ==>
              r == Err(TypeError(NotABool))
  {
    if !(kw.Keys <= FlagNames) then Err(TypeError(UnexpectedKeyword))
    else if KnownServersKey !in kw then Ok(MetricsFlags(knownServers := false))
    else match kw[KnownServersKey]
      case JBool(b) => Ok(MetricsFlags(knownServers := b))
      case _ => Err(TypeError(NotABool))
  }

  /** `MetricsFlags(**x)`: `x` must be a dict. */
  function FlagsFromValue(x: Json): (r: Result<MetricsFlags, ConfigException>)
    ensures !x.JObject? ==> r == Err(TypeError(NotAMapping))
    ensures r.Ok? <==> x.JObject? && x.fields.Keys <= FlagNames &&
                       (KnownServersKey in x.fields ==> x.fields[KnownServersKey].JBool?)
    ensures r.Ok? ==> (r.value.knownServers <==> x == JObject(map[KnownServersKey := JBool(true)]))
    ensures r.Err? ==> r.error.TypeError?
    ensures x.JObject? && !(x.fields.Keys <= FlagNames) ==> r == Err(TypeError(UnexpectedKeyword))
    ensures x.JObject? && x.fields.Keys <= FlagNames && KnownServersKey in x.fields &&
            !x.fields[KnownServersKey].JBool? ==>
              r == Err(TypeError(NotABool))
  {
    match x
    case JObject(kw) => FlagsFromKwargs(kw)
    case _ => Err(TypeError(NotAMapping))
  }

  /** `MetricsFlags.all_off()`: every field named explicitly with False. */
  function AllOff(): (f: MetricsFlags)
    ensures !f.knownServers
  {
    var r := FlagsFromKwargs(map name | name in FlagNames :: JBool(false));
    if r.Ok? then r.value else assert false; MetricsFlags(knownServers := false)
  }

  /** The settings a successful `read_config` leaves behind. `sentryDsn` and
      `sentryEnvironment` are `None` when they are not assigned (no sentry key). */
  datatype MetricsSettings = MetricsSettings(
    enableMetrics: Json,
    reportStats: Json,
    reportStatsEndpoint: Json,
    reportStatsExcludeAliasList: Json,
    metricsPort: Json,
    metricsBindHost: Json,
    metricsFlags: MetricsFlags,
    sentryEnabled: bool,
    sentryDsn: Option<Json>,
    sentryEnvironment: Option<Json>)

  /** The value of `enable_metrics`, False when absent. */
  function EnableMetrics(config: JsonDict): (r: Json) {
    Get(config, EnableMetricsKey, JBool(false))
  }

  /** The flags: the `metrics_flags` dict (or `{}` when it is false) only when
      metrics are enabled, all off otherwise. */
  function ReadFlags(config: JsonDict): (r: Result<MetricsFlags, ConfigException>)
    ensures !Truthy(EnableMetrics(config)) ==> r == Ok(MetricsFlags(knownServers := false))
    ensures Truthy(EnableMetrics(config)) && !Truthy(Get(config, MetricsFlagsKey, JNull)) ==>
              r == Ok(MetricsFlags(knownServers := false))
    ensures Truthy(EnableMetrics(config)) && MetricsFlagsKey in config && Truthy(config[MetricsFlagsKey]) ==>
              r == FlagsFromValue(config[MetricsFlagsKey])
    ensures r.Ok? && r.value.knownServers <==>
              Truthy(EnableMetrics(config)) && MetricsFlagsKey in config &&
              config[MetricsFlagsKey] == JObject(map[KnownServersKey := JBool(true)])
  {
    if Truthy(EnableMetrics(config)) then
      FlagsFromValue(Or(Get(config, MetricsFlagsKey, JNull), JObject(map[])))
    else
      Ok(AllOff())
  }

  /** Whether `read_config` gets as far as reading `dsn` and `environment`:
      the sentry key is present, its dependency is installed and it is a dict. */
  predicate ReadsSentrySection(config: JsonDict, sentryAvailable: bool) {
    SentryKey in config && sentryAvailable && config[SentryKey].JObject?
  }

  /** The sentry part of the settings: `sentry_enabled`, and `sentry_dsn` and
      `sentry_environment`, which are `None` when they are not assigned. */
  datatype SentrySettings = SentrySettings(enabled: bool, dsn: Option<Json>, environment: Option<Json>)

  /** The sentry part of `read_config`. */
  function ReadSentry(config: JsonDict, sentryAvailable: bool)
    : (r: Result<SentrySettings, ConfigException>)
    ensures r.Ok? <==>
              (SentryKey !in config ||
               (ReadsSentrySection(config, sentryAvailable) &&
                Truthy(Get(config[SentryKey].fields, DsnKey, JNull))))
    ensures r.Ok? ==> (r.value.enabled <==> SentryKey in config)
    ensures SentryKey !in config ==> r == Ok(SentrySettings(false, None, None))
    ensures SentryKey in config && !sentryAvailable ==> r == Err(DependencyError)
    ensures SentryKey in config && sentryAvailable && !config[SentryKey].JObject? ==> r == Err(AttributeError)
    ensures r == Err(ConfigError(SentryDsnRequired)) <==>
              ReadsSentrySection(config, sentryAvailable) &&
              !Truthy(Get(config[SentryKey].fields, DsnKey, JNull))
    ensures r.Ok? && SentryKey in config ==>
              var section := config[SentryKey].fields;
              DsnKey in section && Truthy(section[DsnKey]) &&
              r.value.dsn == Some(section[DsnKey]) &&
              r.value.environment == Some(Get(section, EnvironmentKey, JNull))
  {
    if SentryKey !in config then Ok(SentrySettings(false, None, None))
    else if !sentryAvailable then Err(DependencyError)
    else match config[SentryKey]
      case JObject(section) =>
        var dsn := Get(section, DsnKey, JNull);
        var environment := Get(section, EnvironmentKey, JNull);
        if !Truthy(dsn) then Err(ConfigError(SentryDsnRequired))
        else Ok(SentrySettings(true, Some(dsn), Some(environment)))
      case _ => Err(AttributeError)
  }

  /** `MetricsConfig.read_config` as a value: the settings, or the exception
      it raises. Absent keys take their defaults, present ones are copied
      verbatim; a `metrics_flags` error is raised before anything about sentry. */
  function ReadMetricsConfig(config: JsonDict, sentryAvailable: bool)
    : (r: Result<MetricsSettings, ConfigException>)
    ensures r.Ok? <==> ReadFlags(config).Ok? && ReadSentry(config, sentryAvailable).Ok?
    ensures ReadFlags(config).Err? ==> r == Err(ReadFlags(config).error)
    ensures ReadFlags(config).Ok? && ReadSentry(config, sentryAvailable).Err? ==>
              r == Err(ReadSentry(config, sentryAvailable).error)
    ensures r.Ok? ==>
              r.value.enableMetrics == (if EnableMetricsKey in config then config[EnableMetricsKey] else JBool(false)) &&
              r.value.reportStats == (if ReportStatsKey in config then config[ReportStatsKey] else JNull) &&
              r.value.reportStatsEndpoint ==
                (if ReportStatsEndpointKey in config then config[ReportStatsEndpointKey]
                 else JString(DefaultReportStatsEndpoint)) &&
              r.value.reportStatsExcludeAliasList ==
                (if ReportStatsExcludeAliasListKey in config then config[ReportStatsExcludeAliasListKey]
                 else JArray([])) &&
              r.value.metricsPort == (if MetricsPortKey in config then config[MetricsPortKey] else JNull) &&
              r.value.metricsBindHost ==
                (if MetricsBindHostKey in config then config[MetricsBindHostKey]
                 else JString(DefaultMetricsBindHost))
    ensures r.Ok? ==>
              r.value.metricsFlags == ReadFlags(config).value &&
              SentrySettings(r.value.sentryEnabled, r.value.sentryDsn, r.value.sentryEnvironment) ==
                ReadSentry(config, sentryAvailable).value
    ensures r.Ok? ==> (r.value.sentryEnabled <==> SentryKey in config)
    ensures r.Ok? && !Truthy(EnableMetrics(config)) ==> !r.value.metricsFlags.knownServers
    ensures r.Ok? && r.value.sentryEnabled ==> r.value.sentryDsn.Some? && Truthy(r.value.sentryDsn.value)
  {
    match ReadFlags(config)
    case Err(e) => Err(e)
    case Ok(flags) =>
      match ReadSentry(config, sentryAvailable)
      case Err(e) => Err(e)
      case Ok(SentrySettings(enabled, dsn, environment)) =>
        Ok(MetricsSettings(
          EnableMetrics(config),
          Get(config, ReportStatsKey, JNull),
          Get(config, ReportStatsEndpointKey, JString(DefaultReportStatsEndpoint)),
          Get(config, ReportStatsExcludeAliasListKey, JArray([])),
          Get(config, MetricsPortKey, JNull),
          Get(config, MetricsBindHostKey, JString(DefaultMetricsBindHost)),
          flags, enabled, dsn, environment))
  }

  /** The reader fails with `ConfigError` exactly when the sentry section it
      reads has a missing or false `dsn` and the flags were read without error. */
  lemma ConfigErrorExactly(config: JsonDict, sentryAvailable: bool)
    ensures (ReadMetricsConfig(config, sentryAvailable).Err? &&
             ReadMetricsConfig(config, sentryAvailable).error.ConfigError?) <==>
            ReadFlags(config).Ok? && ReadsSentrySection(config, sentryAvailable) &&
            !Truthy(Get(config[SentryKey].fields, DsnKey, JNull))
  {
  }

  /** With metrics disabled, whatever `metrics_flags` holds changes nothing. */
  lemma FlagsIgnoredUnlessEnabled(config: JsonDict, sentryAvailable: bool, flags: Json)
    requires !Truthy(EnableMetrics(config))
    ensures ReadMetricsConfig(config[MetricsFlagsKey := flags], sentryAvailable) ==
            ReadMetricsConfig(config - {MetricsFlagsKey}, sentryAvailable)
  {
  }

  /** With metrics enabled, a `known_servers` flag that is not a bool is
      rejected whatever else the configuration holds. */
  lemma NonBoolKnownServersRejected(config: JsonDict, sentryAvailable: bool, v: Json)
    requires Truthy(EnableMetrics(config))
    requires MetricsFlagsKey in config && config[MetricsFlagsKey] == JObject(map[KnownServersKey := v])
    requires !v.JBool?
    ensures ReadMetricsConfig(config, sentryAvailable) == Err(TypeError(NotABool))
  {
  }

  /** Keys other than the recognised ones do not affect the result. */
  lemma OnlyRecognisedKeysMatter(c1: JsonDict, c2: JsonDict, sentryAvailable: bool)
    requires forall k :: k in RecognisedKeys ==> (k in c1 <==> k in c2)
    requires forall k :: k in RecognisedKeys && k in c1 ==> k in c2 && c1[k] == c2[k]
    ensures ReadMetricsConfig(c1, sentryAvailable) == ReadMetricsConfig(c2, sentryAvailable)
  {
  }

  /** An empty configuration reads as all the defaults. */
  lemma EmptyConfigDefaults(sentryAvailable: bool)
    ensures ReadMetricsConfig(map[], sentryAvailable) ==
            Ok(MetricsSettings(
              JBool(false), JNull, JString(DefaultReportStatsEndpoint), JArray([]), JNull,
              JString(DefaultMetricsBindHost), MetricsFlags(knownServers := false), false, None, None))
  {
  }

  /** `MetricsConfig.generate_config_section`: the `report_stats` line, or an
      empty line when the choice is not known. */
  function GenerateConfigSection(reportStats: Option<bool>): (r: string)
    ensures reportStats == Some(true) ==> r == "report_stats: true\n"
    ensures reportStats == Some(false) ==> r == "report_stats: false\n"
    ensures reportStats == None ==> r == "\n"
  {
    match reportStats
    case None => "\n"
    case Some(b) =>
      var arg := if b then "true" else "false";
      ReportStatsLine(arg);
      var res := Format(ReportStatsTemplate, arg);
      if res.Ok? then res.value else assert false; "\n"
  }

  /** The template of the `report_stats` line formats to that line for both
      spellings of the bool. */
  lemma ReportStatsLine(arg: string)
    requires arg == "true" || arg == "false"
    ensures arg == "true" ==> Format(ReportStatsTemplate, arg) == Ok("report_stats: true\n")
    ensures arg == "false" ==> Format(ReportStatsTemplate, arg) == Ok("report_stats: false\n")
  {
    assert "report_stats: " + "true" + "\n" == "report_stats: true\n";
    assert "report_stats: " + "false" + "\n" == "report_stats: false\n";
    assert ReportStatsTemplate == "report_stats: " + "%s" + "\n";
    FormatOneDirective("report_stats: ", "\n", arg);
  }

  /** Distinct choices generate distinct sections. */
  lemma GenerateConfigSectionInjective(a: Option<bool>, b: Option<bool>)
    ensures GenerateConfigSection(a) == GenerateConfigSection(b) ==> a == b
  {
  }

  /** The metrics configuration object. Each field is one attribute that
      `read_config` assigns; `None` means the attribute has not been assigned. */
  class MetricsConfig {
    var enableMetrics: Option<Json>
    var reportStats: Option<Json>
    var reportStatsEndpoint: Option<Json>
    var reportStatsExcludeAliasList: Option<Json>
    var metricsPort: Option<Json>
    var metricsBindHost: Option<Json>
    var metricsFlags: Option<MetricsFlags>
    var sentryEnabled: Option<bool>
    var sentryDsn: Option<Json>
    var sentryEnvironment: Option<Json>

    /** A configuration object on which nothing has been read yet. */
    constructor ()
      ensures enableMetrics == None && reportStats == None && reportStatsEndpoint == None
      ensures reportStatsExcludeAliasList == None && metricsPort == None && metricsBindHost == None
      ensures metricsFlags == None && sentryEnabled == None && sentryDsn == None && sentryEnvironment == None
    {
      enableMetrics, reportStats, reportStatsEndpoint := None, None, None;
      reportStatsExcludeAliasList, metricsPort, metricsBindHost := None, None, None;
      metricsFlags, sentryEnabled, sentryDsn, sentryEnvironment := None, None, None, None;
    }

    /** `read_config`: assigns the attributes one after the other and returns
        the exception it raises, if any; attributes assigned before the raise
        keep their new values, the later ones keep their old ones. */
    method ReadConfig(config: JsonDict, sentryAvailable: bool) returns (raised: Option<ConfigException>)
      modifies this
      ensures raised == match ReadMetricsConfig(config, sentryAvailable)
                        case Ok(_) => None
                        case Err(e) => Some(e)
      ensures raised.None? ==>
                var s := ReadMetricsConfig(config, sentryAvailable).value;
                enableMetrics == Some(s.enableMetrics) && reportStats == Some(s.reportStats) &&
                reportStatsEndpoint == Some(s.reportStatsEndpoint) &&
                reportStatsExcludeAliasList == Some(s.reportStatsExcludeAliasList) &&
                metricsPort == Some(s.metricsPort) && metricsBindHost == Some(s.metricsBindHost) &&
                metricsFlags == Some(s.metricsFlags) && sentryEnabled == Some(s.sentryEnabled) &&
                (s.sentryEnabled ==> sentryDsn == s.sentryDsn && sentryEnvironment == s.sentryEnvironment)
      // the plain values are assigned before anything can raise
      ensures enableMetrics == Some(EnableMetrics(config))
      ensures reportStats == Some(Get(config, ReportStatsKey, JNull))
      ensures reportStatsEndpoint == Some(Get(config, ReportStatsEndpointKey, JString(DefaultReportStatsEndpoint)))
      ensures reportStatsExcludeAliasList == Some(Get(config, ReportStatsExcludeAliasListKey, JArray([])))
      ensures metricsPort == Some(Get(config, MetricsPortKey, JNull))
      ensures metricsBindHost == Some(Get(config, MetricsBindHostKey, JString(DefaultMetricsBindHost)))
      ensures metricsFlags == match ReadFlags(config)
                              case Ok(f) => Some(f)
                              case Err(_) => old(metricsFlags)
      ensures sentryEnabled == if ReadFlags(config).Ok? then Some(SentryKey in config) else old(sentryEnabled)
      ensures if ReadFlags(config).Ok? && ReadsSentrySection(config, sentryAvailable) then
                sentryDsn == Some(Get(config[SentryKey].fields, DsnKey, JNull)) &&
                sentryEnvironment == Some(Get(config[SentryKey].fields, EnvironmentKey, JNull))
              else
                sentryDsn == old(sentryDsn) && sentryEnvironment == old(sentryEnvironment)
    {
      ReadPlainSettings(config);
      raised := ReadMetricsFlags(config);
      if raised.None? {
        raised := ReadSentryConfig(config, sentryAvailable);
      }
    }

    /** Lines 51-61 of `read_config`: the settings that are copied from the
        configuration, or take their default when absent. */
    method ReadPlainSettings(config: JsonDict)
      modifies this`enableMetrics, this`reportStats, this`reportStatsEndpoint,
               this`reportStatsExcludeAliasList, this`metricsPort, this`metricsBindHost
      ensures enableMetrics == Some(EnableMetrics(config))
      ensures reportStats == Some(Get(config, ReportStatsKey, JNull))
      ensures reportStatsEndpoint == Some(Get(config, ReportStatsEndpointKey, JString(DefaultReportStatsEndpoint)))
      ensures reportStatsExcludeAliasList == Some(Get(config, ReportStatsExcludeAliasListKey, JArray([])))
      ensures metricsPort == Some(Get(config, MetricsPortKey, JNull))
      ensures metricsBindHost == Some(Get(config, MetricsBindHostKey, JString(DefaultMetricsBindHost)))
    {
      enableMetrics := Some(Get(config, EnableMetricsKey, JBool(false)));
      reportStats := Some(Get(config, ReportStatsKey, JNull));
      reportStatsEndpoint := Some(Get(config, ReportStatsEndpointKey, JString(DefaultReportStatsEndpoint)));
      reportStatsExcludeAliasList := Some(Get(config, ReportStatsExcludeAliasListKey, JArray([])));
      metricsPort := Some(Get(config, MetricsPortKey, JNull));
      metricsBindHost := Some(Get(config, MetricsBindHostKey, JString(DefaultMetricsBindHost)));
    }

    /** Lines 63-67 of `read_config`: assigns `metrics_flags`, unless building
        the flags raises. */
    method ReadMetricsFlags(config: JsonDict) returns (raised: Option<ConfigException>)
      modifies this`metricsFlags
      ensures raised == match ReadFlags(config)
                        case Ok(_) => None
                        case Err(e) => Some(e)
      ensures metricsFlags == match ReadFlags(config)
                              case Ok(f) => Some(f)
                              case Err(_) => old(metricsFlags)
    {
      if Truthy(EnableMetrics(config)) {
        var kwargs := Or(Get(config, MetricsFlagsKey, JNull), JObject(map[]));
        var flags := FlagsFromValue(kwargs);
        if flags.Err? {
          return Some(flags.error);
        }
        metricsFlags := Some(flags.value);
      } else {
        metricsFlags := Some(AllOff());
      }
      return None;
    }

    /** Lines 69-78 of `read_config`: assigns `sentry_enabled`, then, when the
        sentry section is read, `sentry_dsn` and `sentry_environment`, and
        raises when the dsn is missing or false. */
    method ReadSentryConfig(config: JsonDict, sentryAvailable: bool) returns (raised: Option<ConfigException>)
      modifies this`sentryEnabled, this`sentryDsn, this`sentryEnvironment
      ensures raised == match ReadSentry(config, sentryAvailable)
                        case Ok(_) => None
                        case Err(e) => Some(e)
      ensures sentryEnabled == Some(SentryKey in config)
      ensures if ReadsSentrySection(config, sentryAvailable) then
                sentryDsn == Some(Get(config[SentryKey].fields, DsnKey, JNull)) &&
                sentryEnvironment == Some(Get(config[SentryKey].fields, EnvironmentKey, JNull))
              else
                sentryDsn == old(sentryDsn) && sentryEnvironment == old(sentryEnvironment)
    {
      sentryEnabled := Some(SentryKey in config);
      if SentryKey in config {
        if !sentryAvailable {
          return Some(DependencyError);
        }
        var section := config[SentryKey];
        if !section.JObject? {
          return Some(AttributeError);
        }
        sentryDsn := Some(Get(section.fields, DsnKey, JNull));
        sentryEnvironment := Some(Get(section.fields, EnvironmentKey, JNull));
        if !Truthy(sentryDsn.value) {
          return Some(ConfigError(SentryDsnRequired));
        }
      }
      return None;
    }
  }
}
