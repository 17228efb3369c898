# Synapse metrics configuration, modelled in Dafny

This project models the `metrics` section of the Synapse homeserver
configuration (`synapse/config/metrics.py`). That section reads a parsed
configuration dictionary and turns it into typed settings:

- `enable_metrics`, `report_stats`, `report_stats_endpoint`,
  `report_stats_exclude_alias_list`, `metrics_port` and `metrics_bind_host` are
  copied as they are, or take their defaults when the key is absent;
- the `metrics_flags` record (`MetricsFlags`, one bool `known_servers`) is built
  from the `metrics_flags` dict only when metrics are enabled. Otherwise every
  flag is off;
- `sentry_enabled` is whether the `sentry` key is present. When it is, `dsn` and
  `environment` are read from that section, and a missing or false `dsn` raises
  `ConfigError`;
- `generate_config_section` produces the `report_stats` line of a generated
  configuration file.

Files:

- `wrappers.dfy`: `Option` and `Result`.
- `json.dfy`: configuration values (`None`, bool, int, float, string, list, dict),
  Python truthiness, `dict.get` and `or`.
- `percent_format.dfy`: Python's `template % arg` for one string argument. It is
  used at line 84 of the source, and its one-directive lemma is what proves
  the generated lines.
- `metrics.dfy`: the flags, the model of `read_config` as a value
  (`ReadMetricsConfig` and its two parts `ReadFlags` and `ReadSentry`), lemmas
  about it, `GenerateConfigSection`, and the class `MetricsConfig`.
  `MetricsConfig.ReadConfig` assigns the object's attributes step by step and
  is proved against `ReadMetricsConfig`.

The model's conventions:

- Exceptions become values of `ConfigException`. `ConfigError` is the source's
  own error. `TypeError` comes from `MetricsFlags(**x)`. `AttributeError` comes
  from `.get` on a sentry section that is not a dict. `DependencyError` comes
  from the dependency check.
- The class fields are `Option`s. `None` stands for an attribute that has not
  been assigned yet. When `read_config` raises, the attributes it assigned
  before the raise keep their new values and the rest keep their old ones,
  as in Python.
- `read_config` is one Python method. In the model it is `ReadConfig` plus
  three step methods, one per block of the source (lines 51-61, 63-67 and
  69-78). They run in the same order as the source and do the same
  assignments.
- `check_requirements("sentry")` checks that an optional package is installed.
  It is code this model cannot see, so it becomes the parameter
  `sentryAvailable`.
- `MetricsFlags(**kw)` refuses keywords that are not field names
  (`TypeError`), as a Python `attrs` initialiser does.
- Precedence follows the order of the source. An error in `metrics_flags` is
  raised before anything about sentry is looked at.

## Model

| member | source | states |
|---|---|---|
| `Metrics.FlagsFromKwargs` | synapse/config/metrics.py:33-37 | `MetricsFlags(**kw)` succeeds exactly when every keyword is a field name and `known_servers`, if given, is a bool; `known_servers` is true exactly when it is given as true (default false); unexpected keywords and non-bool values raise `TypeError` |
| `Metrics.FlagsFromValue` | synapse/config/metrics.py:64-65 | unpacking a value that is not a dict raises `TypeError`; every failure is a `TypeError`, for an unexpected keyword before a non-bool `known_servers`; it succeeds exactly when the value is a dict whose keys are all field names and whose `known_servers`, if present, is a bool; `known_servers` is then true exactly when the value is `{known_servers: true}` |
| `Metrics.AllOff` | synapse/config/metrics.py:39-44 | building the flags with every field named and set to False gives flags with `known_servers` off |
| `Metrics.ReadFlags` | synapse/config/metrics.py:63-67 | metrics disabled (`enable_metrics`, read by `EnableMetrics` as at line 51 with default False, absent or false) gives all-off flags whatever `metrics_flags` holds; enabled with an absent, null or empty `metrics_flags` gives the default flags; enabled with a true value gives that value unpacked as keyword arguments; `known_servers` ends up true exactly when metrics are enabled and `metrics_flags` is `{known_servers: true}` |
| `Metrics.ReadSentry` | synapse/config/metrics.py:69-78 | gives the `SentrySettings` (enabled, dsn, environment); succeeds exactly when the `sentry` key is absent, or the dependency is installed, the section is a dict and its `dsn` is true; `sentry_enabled` is whether the `sentry` key is present; without it nothing else is read; a missing dependency or a section that is not a dict raises; `ConfigError` is raised exactly when the section is read and its `dsn` is missing or false; on success the dsn is present and true, and dsn and environment are copied from the section |
| `Metrics.ReadMetricsConfig` | synapse/config/metrics.py:50-78 | succeeds exactly when the flags and the sentry part succeed, with a flags error raised first; on success the flags are those `ReadFlags` gives and the sentry attributes are those `ReadSentry` gives; absent keys take the defaults False, None, the matrix.org push URL, `[]`, None and `"127.0.0.1"`, and present keys are copied verbatim; `sentry_enabled` iff the `sentry` key is present; disabled metrics give `known_servers` off; an enabled sentry has a true dsn |
| `Json.Truthy` | synapse/config/metrics.py:63-75 | the tests `if self.enable_metrics`, `... or {}` and `not self.sentry_dsn` use Python truth: a value is false exactly when it is `None`, `False`, `0`, `0.0`, `""`, `[]` or `{}` |
| `Json.Get` | synapse/config/metrics.py:51-61 | `config.get(key, default)` is the value stored under `key` when the key is present and the default otherwise |
| `Json.Or` | synapse/config/metrics.py:64 | `a or b` is `a` when `a` is true and `b` otherwise, so it is one of the two and is true exactly when either is |
| `Metrics.ConfigErrorExactly` | synapse/config/metrics.py:72-78 | `read_config` raises `ConfigError` if and only if the flags are valid, the sentry section is read and its `dsn` is missing or false |
| `Metrics.FlagsIgnoredUnlessEnabled` | synapse/config/metrics.py:63-67 | with metrics disabled, any `metrics_flags` value gives the same outcome as having no `metrics_flags` key |
| `Metrics.NonBoolKnownServersRejected` | synapse/config/metrics.py:35-37 | with metrics enabled, `metrics_flags: {known_servers: v}` with a non-bool `v` makes `read_config` raise `TypeError` |
| `Metrics.OnlyRecognisedKeysMatter` | synapse/config/metrics.py:51-78 | two configurations that agree on the eight keys the reader looks at read to the same outcome |
| `Metrics.EmptyConfigDefaults` | synapse/config/metrics.py:51-69 | an empty configuration reads to exactly the default settings, metrics flags all off and sentry disabled |
| `Metrics.GenerateConfigSection` | synapse/config/metrics.py:80-87 | returns `"report_stats: true\n"` for true, `"report_stats: false\n"` for false and `"\n"` for None, computed by formatting the source's template |
| `Metrics.ReportStatsLine` | synapse/config/metrics.py:84 | the template `"report_stats: %s\n"` formats to the line with `true` or `false` in place of `%s` |
| `Metrics.GenerateConfigSectionInjective` | synapse/config/metrics.py:83-87 | the three possible inputs give three different sections |
| `PercentFormat.Format` | synapse/config/metrics.py:84 | `template % arg` with no `%` in the template raises "not all arguments converted" |
| `PercentFormat.FormatFrom` | synapse/config/metrics.py:84 | scanning a `%`-free rest of the template returns it unchanged once the argument is used, and raises otherwise |
| `PercentFormat.FormatOneDirective` | synapse/config/metrics.py:84 | a template with exactly one `%s` and no other `%` formats to the template with the argument in place of `%s` |
| `PercentFormat.FormatFromOneDirective` | synapse/config/metrics.py:84 | the same for the scan that has not yet used the argument, proved by induction |
| `Metrics.MetricsConfig.constructor` | synapse/config/metrics.py:47-48 | a new configuration object has none of the metrics attributes assigned |
| `Metrics.MetricsConfig.ReadConfig` | synapse/config/metrics.py:50-78 | returns the exception `ReadMetricsConfig` raises, or none; on success every attribute equals the corresponding setting; the six plain attributes are always assigned; `metrics_flags`, `sentry_enabled`, `sentry_dsn` and `sentry_environment` keep their old values when an earlier step raised |
| `Metrics.MetricsConfig.ReadPlainSettings` | synapse/config/metrics.py:51-61 | assigns the six plain attributes from the configuration or their defaults, and nothing else |
| `Metrics.MetricsConfig.ReadMetricsFlags` | synapse/config/metrics.py:63-67 | assigns `metrics_flags` to the flags `ReadFlags` gives, or raises its error and leaves the attribute unchanged |
| `Metrics.MetricsConfig.ReadSentryConfig` | synapse/config/metrics.py:69-78 | assigns `sentry_enabled`; assigns `sentry_dsn` and `sentry_environment` exactly when the sentry section is read; raises the error `ReadSentry` gives |

## Left out

- `synapse/rest/client/relations.py`: HTTP servlets that authenticate the
  caller, parse query parameters and call a relations handler that is not part
  of this model. None of their logic is modelled.
- `check_requirements("sentry")`: it checks whether a package is installed,
  which is outside the program. It becomes the parameter `sentryAvailable`.
- The `Config` base class, the `section` attribute and the `**kwargs` that
  `read_config` and `generate_config_section` accept and ignore. The
  configuration object of the model is the `MetricsConfig` class with the
  metrics attributes only.
- What the settings are later used for (sending usage statistics, opening the
  metrics listener, the sentry client): only the parsed values are modelled.
- Configuration values beyond the JSON-like ones: YAML dates, non-string dict
  keys and other Python objects do not occur in the model.
- Floating-point special values: `JFloat` holds a real number, so NaN and the
  infinities, which YAML can spell as `.nan` and `.inf`, are not represented.
  NaN is truthy in Python and would be a true `dsn` or `enable_metrics`.
- `FlagsFromKwargs`: Python's `TypeError` names the unexpected keyword; the
  model records only that there was one.
- The text of the `TypeError`, `AttributeError` and dependency exceptions,
  which comes from Python or from code outside `synapse/config/metrics.py`. Only `ConfigError` carries
  its message from the source.
- `PercentFormat.Format`: it models only the `%s` and `%%` conversions with one
  string argument, which is all the source uses. Flags, widths, other
  conversions and tuple or mapping arguments are treated as unsupported.
