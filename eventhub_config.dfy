/**
 * `get_config` of `send_logs_to_eventhub.py`: defaults, then non-empty environment
 * variables, then the YAML file (both spellings of each key, in mapping order),
 * then every command-line argument that is not `None`.
 */
module EventHubConfig {
  import opened Wrappers
  import opened Json
  import opened ConfigLayering

  const Defaults: Config := map[
    "mode" := Str("batch"),
    "connection_string" := Null,
    "eventhub_name" := Null,
    "namespace" := Null,
    "use_managed_identity" := Bool(false),
    "auth_method" := Null,
    "tenant_id" := Null,
    "client_id" := Null,
    "client_secret" := Null,
    "start" := Null,
    "end" := Null,
    "duration_hours" := Int(1),
    "total_events" := Null,
    "events_per_batch" := Int(100),
    "delay_between_batches" := Real(0.0),
    "events_per_second" := Int(10),
    "duration_seconds" := Null
  ]

  const EnvMapping: KeyMapping := [
    ("EVENTHUB_CONNECTION_STRING", "connection_string"),
    ("EVENTHUB_NAME", "eventhub_name"),
    ("EVENTHUB_NAMESPACE", "namespace"),
    ("AZURE_TENANT_ID", "tenant_id"),
    ("AZURE_CLIENT_ID", "client_id"),
    ("AZURE_CLIENT_SECRET", "client_secret")
  ]

  const YamlMapping: KeyMapping := [
    ("connection_string", "connection_string"),
    ("connectionString", "connection_string"),
    ("eventhub_name", "eventhub_name"),
    ("eventhubName", "eventhub_name"),
    ("namespace", "namespace"),
    ("use_managed_identity", "use_managed_identity"),
    ("useManagedIdentity", "use_managed_identity"),
    ("auth_method", "auth_method"),
    ("authMethod", "auth_method"),
    ("tenant_id", "tenant_id"),
    ("tenantId", "tenant_id"),
    ("client_id", "client_id"),
    ("clientId", "client_id"),
    ("client_secret", "client_secret"),
    ("clientSecret", "client_secret"),
    ("mode", "mode"),
    ("start", "start"),
    ("end", "end"),
    ("duration_hours", "duration_hours"),
    ("durationHours", "duration_hours"),
    ("total_events", "total_events"),
    ("totalEvents", "total_events"),
    ("events_per_batch", "events_per_batch"),
    ("eventsPerBatch", "events_per_batch"),
    ("delay_between_batches", "delay_between_batches"),
    ("delayBetweenBatches", "delay_between_batches"),
    ("events_per_second", "events_per_second"),
    ("eventsPerSecond", "events_per_second"),
    ("duration_seconds", "duration_seconds"),
    ("durationSeconds", "duration_seconds")
  ]

  const CliMapping: KeyMapping := [
    ("connection_string", "connection_string"),
    ("eventhub_name", "eventhub_name"),
    ("namespace", "namespace"),
    ("use_managed_identity", "use_managed_identity"),
    ("auth_method", "auth_method"),
    ("tenant_id", "tenant_id"),
    ("client_id", "client_id"),
    ("client_secret", "client_secret"),
    ("mode", "mode"),
    ("start", "start"),
    ("end", "end"),
    ("duration_hours", "duration_hours"),
    ("total_events", "total_events"),
    ("events_per_batch", "events_per_batch"),
    ("delay_between_batches", "delay_between_batches"),
    ("events_per_second", "events_per_second"),
    ("duration_seconds", "duration_seconds")
  ]

  /** `os.environ` as configuration values. */
  function EnvValues(env: map<string, string>): Config
  {
    map k | k in env :: Str(env[k])
  }

  /**
   * The value a key ends up with, highest priority first: a command-line argument that
   * is not `None`; the last YAML spelling present; a non-empty environment variable;
   * the default.
   */
  function Resolved(env: map<string, string>, fileConfig: Option<Config>, args: Config, key: string): Value
    requires key in Defaults
  {
    var cli := Pick(args, CliMapping, NotNone, key);
    var yaml := if fileConfig.Some? then Pick(fileConfig.value, YamlMapping, Contained, key) else None;
    var envValue := Pick(EnvValues(env), EnvMapping, NonEmpty, key);
    if cli.Some? then cli.value
    else if yaml.Some? then yaml.value
    else if envValue.Some? then envValue.value
    else Defaults[key]
  }

  lemma MappingsTargetDefaults()
    ensures forall i | 0 <= i < |EnvMapping| :: EnvMapping[i].1 in Defaults
    ensures forall i | 0 <= i < |YamlMapping| :: YamlMapping[i].1 in Defaults
    ensures forall i | 0 <= i < |CliMapping| :: CliMapping[i].1 in Defaults
  {
  }

  /**
   * `get_config(args)`: `fileConfig` is the loaded YAML mapping when `--config` was
   * given; `args` holds the parsed arguments.
   */
  method GetConfig(env: map<string, string>, fileConfig: Option<Config>, args: Config) returns (config: Config)
    ensures config.Keys == Defaults.Keys
    ensures forall key | key in Defaults :: config[key] == Resolved(env, fileConfig, args, key)
  {
    MappingsTargetDefaults();
    var fromEnv := ApplyLayer(Defaults, EnvValues(env), EnvMapping, NonEmpty);
    LayeredKeys(Defaults, EnvValues(env), EnvMapping, NonEmpty);
    var fromFile := fromEnv;
    if fileConfig.Some? {
      fromFile := ApplyLayer(fromEnv, fileConfig.value, YamlMapping, Contained);
      LayeredKeys(fromEnv, fileConfig.value, YamlMapping, Contained);
    }
    config := ApplyLayer(fromFile, args, CliMapping, NotNone);
    LayeredKeys(fromFile, args, CliMapping, NotNone);
    forall key | key in Defaults
      ensures config[key] == Resolved(env, fileConfig, args, key)
    {
      LayeredLookup(Defaults, EnvValues(env), EnvMapping, NonEmpty, key);
      if fileConfig.Some? {
        LayeredLookup(fromEnv, fileConfig.value, YamlMapping, Contained, key);
      }
      LayeredLookup(fromFile, args, CliMapping, NotNone, key);
    }
  }

  /** When both spellings are in the YAML file, the camelCase one (listed later) wins. */
  lemma CamelCaseAliasWins(fileConfig: Config, i: nat)
    requires i < |YamlMapping| && YamlMapping[i].0 in fileConfig
    requires YamlMapping[i].0 != YamlMapping[i].1
    ensures Pick(fileConfig, YamlMapping, Contained, YamlMapping[i].1) == Some(fileConfig[YamlMapping[i].0])
  {
    forall j | i < j < |YamlMapping|
      ensures YamlMapping[j].1 != YamlMapping[i].1
    {
    }
    PickLast(fileConfig, YamlMapping, Contained, i);
  }
}
