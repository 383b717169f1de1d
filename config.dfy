/** The service configuration (internal/config/config.go): every setting is
    read from an environment variable and falls back to a built-in default
    when the variable is unset, empty or does not parse. */
module Config {
  import opened Common

  /** The process environment after `.env` has been merged into it. */
  type Env = map<string, string>

  /** `time.Duration` (nanoseconds) and `time.ParseDuration`, which the model
      does not define. */
  type Duration = int
  type DurationParser = string -> Option<Duration>

  /** `os.Getenv`: an unset variable reads as `""`. */
  function Lookup(env: Env, key: string): string
  {
    if key in env then env[key] else ""
  }

  // ---------------------------------------------------------------------------
  // The getters

  /** `getEnv`: the value when it is non-empty, otherwise the default. */
  function GetEnv(env: Env, key: string, defaultValue: string): (r: string)
    ensures Lookup(env, key) != "" ==> r == env[key]
    ensures Lookup(env, key) == "" ==> r == defaultValue
    ensures r == "" ==> defaultValue == ""
  {
    var value := Lookup(env, key);
    if value != "" then value else defaultValue
  }

  /** `getEnvAsInt`: the value when it is a 64-bit integer, otherwise the default. */
  function GetEnvAsInt(env: Env, key: string, defaultValue: int): (r: int)
    ensures Lookup(env, key) != "" && Atoi(env[key]).Some? ==> r == Atoi(env[key]).value
    ensures Lookup(env, key) == "" || Atoi(Lookup(env, key)).None? ==> r == defaultValue
    ensures MinInt64 <= defaultValue <= MaxInt64 ==> MinInt64 <= r <= MaxInt64
  {
    var value := Lookup(env, key);
    if value != "" && Atoi(value).Some? then Atoi(value).value else defaultValue
  }

  /** `getEnvAsBool`: the value when `strconv.ParseBool` accepts it, otherwise the default. */
  function GetEnvAsBool(env: Env, key: string, defaultValue: bool): (r: bool)
    ensures Lookup(env, key) in {"1", "t", "T", "TRUE", "true", "True"} ==> r
    ensures Lookup(env, key) in {"0", "f", "F", "FALSE", "false", "False"} ==> !r
    ensures ParseBool(Lookup(env, key)).None? ==> r == defaultValue
  {
    var value := Lookup(env, key);
    if value != "" && ParseBool(value).Some? then ParseBool(value).value else defaultValue
  }

  /** `getEnvAsDuration`: the value when the duration parser accepts it, otherwise the default. */
  function GetEnvAsDuration(env: Env, key: string, defaultValue: Duration, parseDuration: DurationParser): (r: Duration)
    ensures Lookup(env, key) != "" && parseDuration(env[key]).Some? ==> r == parseDuration(env[key]).value
    ensures Lookup(env, key) == "" || parseDuration(Lookup(env, key)).None? ==> r == defaultValue
  {
    var value := Lookup(env, key);
    if value != "" && parseDuration(value).Some? then parseDuration(value).value else defaultValue
  }

  /** What `getEnvAsSlice` returns: one trimmed element per comma-separated
      piece of a non-empty value, empty pieces included; the default otherwise. */
  function EnvSlice(env: Env, key: string, defaultValue: seq<string>): (r: seq<string>)
    ensures Lookup(env, key) == "" ==> r == defaultValue
    ensures Lookup(env, key) != "" ==> |r| == CountChar(env[key], ',') + 1
    ensures Lookup(env, key) != "" ==> forall i :: 0 <= i < |r| ==> Trimmed(r[i]) && ',' !in r[i]
  {
    var value := Lookup(env, key);
    if value == "" then defaultValue
    else
      var parts := Split(value, ',');
      PiecesAvoidComma(parts);
      seq(|parts|, i requires 0 <= i < |parts| => TrimSpace(parts[i]))
  }

  lemma PiecesAvoidComma(parts: seq<string>)
    requires forall i :: 0 <= i < |parts| ==> ',' !in parts[i]
    ensures forall i :: 0 <= i < |parts| ==> ',' !in TrimSpace(parts[i])
  {
    forall i | 0 <= i < |parts| ensures ',' !in TrimSpace(parts[i]) {
      TrimSpaceAvoids(parts[i], ',');
    }
  }

  /** `getEnvAsSlice`: splits the value at commas and trims the pieces in place. */
  method GetEnvAsSlice(env: Env, key: string, defaultValue: seq<string>) returns (r: seq<string>)
    ensures r == EnvSlice(env, key, defaultValue)
  {
    var value := Lookup(env, key);
    if value == "" {
      return defaultValue;
    }
    var parts := Split(value, ',');
    var values := new string[|parts|](i requires 0 <= i < |parts| => parts[i]);
    for i := 0 to values.Length
      invariant forall j :: 0 <= j < i ==> values[j] == TrimSpace(parts[j])
      invariant forall j :: i <= j < values.Length ==> values[j] == parts[j]
    {
      values[i] := TrimSpace(values[i]);
    }
    r := values[..];
  }

  // ---------------------------------------------------------------------------
  // Properties of the getters

  /** An empty variable and an unset one are read alike by every getter. */
  lemma EmptyLikeUnset(env: Env, key: string, s: string, n: int, b: bool, d: Duration, xs: seq<string>, parseDuration: DurationParser)
    ensures GetEnv(env[key := ""], key, s) == GetEnv(env - {key}, key, s) == s
    ensures GetEnvAsInt(env[key := ""], key, n) == GetEnvAsInt(env - {key}, key, n) == n
    ensures GetEnvAsBool(env[key := ""], key, b) == GetEnvAsBool(env - {key}, key, b) == b
    ensures GetEnvAsDuration(env[key := ""], key, d, parseDuration) == GetEnvAsDuration(env - {key}, key, d, parseDuration) == d
    ensures EnvSlice(env[key := ""], key, xs) == EnvSlice(env - {key}, key, xs) == xs
  {
  }

  /** A 64-bit integer written in decimal is read back as itself, whatever the default. */
  lemma IntRoundTrip(env: Env, key: string, n: int, defaultValue: int)
    requires MinInt64 <= n <= MaxInt64
    ensures GetEnvAsInt(env[key := Itoa(n)], key, defaultValue) == n
  {
    AtoiItoa(n);
  }

  /** A list whose pieces carry no surrounding white space is returned piece by
      piece, so joining the result with commas gives the value back. */
  lemma SliceRoundTrip(env: Env, key: string, defaultValue: seq<string>)
    requires Lookup(env, key) != ""
    requires forall i :: 0 <= i < |Split(env[key], ',')| ==> Trimmed(Split(env[key], ',')[i])
    ensures EnvSlice(env, key, defaultValue) == Split(env[key], ',')
    ensures Join(EnvSlice(env, key, defaultValue), ",") == env[key]
  {
    var parts := Split(env[key], ',');
    var r := EnvSlice(env, key, defaultValue);
    assert |r| == |parts|;
    forall i | 0 <= i < |parts| ensures r[i] == parts[i] {
      assert TrimSpace(parts[i]) == parts[i];
    }
    JoinSplit(env[key], ',');
  }

  // ---------------------------------------------------------------------------
  // Load

  const EnvKeyAPIPort := "API_PORT"
  const EnvKeyServerReadTimeout := "SERVER_READ_TIMEOUT"
  const EnvKeyServerWriteTimeout := "SERVER_WRITE_TIMEOUT"
  const EnvKeyServerIdleTimeout := "SERVER_IDLE_TIMEOUT"
  const EnvKeyDBHost := "MYSQL_HOST"
  const EnvKeyDBPort := "MYSQL_PORT"
  const EnvKeyDBUser := "MYSQL_USER"
  const EnvKeyDBPassword := "MYSQL_PASSWORD"
  const EnvKeyDBDatabase := "MYSQL_DATABASE"
  const EnvKeyDBMaxOpenConns := "DB_MAX_OPEN_CONNS"
  const EnvKeyDBMaxIdleConns := "DB_MAX_IDLE_CONNS"
  const EnvKeyDBConnMaxLifetime := "DB_CONN_MAX_LIFETIME"
  const EnvKeyKafkaBrokers := "KAFKA_BROKERS"
  const EnvKeyKafkaTopic := "KAFKA_TOPIC"
  const EnvKeyKafkaGroupID := "KAFKA_GROUP_ID"
  const EnvKeyKafkaAutoOffsetReset := "KAFKA_AUTO_OFFSET_RESET"
  const EnvKeyKafkaEnableAutoCommit := "KAFKA_ENABLE_AUTO_COMMIT"
  const EnvKeyLogLevel := "LOG_LEVEL"
  const EnvKeyLogFormat := "LOG_FORMAT"

  datatype ServerConfig = ServerConfig(port: string, readTimeout: Duration, writeTimeout: Duration, idleTimeout: Duration)
  datatype DatabaseConfig = DatabaseConfig(
    host: string, port: string, username: string, password: string, database: string,
    maxOpenConns: int, maxIdleConns: int, connMaxLifetime: Duration)
  datatype KafkaConfig = KafkaConfig(
    brokers: seq<string>, topic: string, groupId: string, autoOffsetReset: string, enableAutoCommit: bool)
  datatype LogConfig = LogConfig(level: string, format: string)
  datatype Settings = Settings(server: ServerConfig, database: DatabaseConfig, kafka: KafkaConfig, log: LogConfig)

  /** The configuration of an empty environment: the built-in defaults. */
  const Defaults := Settings(
    ServerConfig("8080", 30 * Second, 30 * Second, 60 * Second),
    DatabaseConfig("localhost", "3306", "root", "password", "log_analytics", 25, 5, 5 * Minute),
    KafkaConfig(["localhost:9092"], "logs", "log-processor-final", "latest", true),
    LogConfig("info", "json"))

  /** `Load`: every field from its variable, with its default. */
  method Load(env: Env, parseDuration: DurationParser) returns (c: Settings)
    ensures c.server == ServerConfig(
      GetEnv(env, EnvKeyAPIPort, Defaults.server.port),
      GetEnvAsDuration(env, EnvKeyServerReadTimeout, Defaults.server.readTimeout, parseDuration),
      GetEnvAsDuration(env, EnvKeyServerWriteTimeout, Defaults.server.writeTimeout, parseDuration),
      GetEnvAsDuration(env, EnvKeyServerIdleTimeout, Defaults.server.idleTimeout, parseDuration))
    ensures c.database == DatabaseConfig(
      GetEnv(env, EnvKeyDBHost, Defaults.database.host),
      GetEnv(env, EnvKeyDBPort, Defaults.database.port),
      GetEnv(env, EnvKeyDBUser, Defaults.database.username),
      GetEnv(env, EnvKeyDBPassword, Defaults.database.password),
      GetEnv(env, EnvKeyDBDatabase, Defaults.database.database),
      GetEnvAsInt(env, EnvKeyDBMaxOpenConns, Defaults.database.maxOpenConns),
      GetEnvAsInt(env, EnvKeyDBMaxIdleConns, Defaults.database.maxIdleConns),
      GetEnvAsDuration(env, EnvKeyDBConnMaxLifetime, Defaults.database.connMaxLifetime, parseDuration))
    ensures c.kafka == KafkaConfig(
      EnvSlice(env, EnvKeyKafkaBrokers, Defaults.kafka.brokers),
      GetEnv(env, EnvKeyKafkaTopic, Defaults.kafka.topic),
      GetEnv(env, EnvKeyKafkaGroupID, Defaults.kafka.groupId),
      GetEnv(env, EnvKeyKafkaAutoOffsetReset, Defaults.kafka.autoOffsetReset),
      GetEnvAsBool(env, EnvKeyKafkaEnableAutoCommit, true))
    ensures c.log == LogConfig(GetEnv(env, EnvKeyLogLevel, Defaults.log.level), GetEnv(env, EnvKeyLogFormat, Defaults.log.format))
    ensures env == map[] ==> c == Defaults
  {
    var brokers := GetEnvAsSlice(env, EnvKeyKafkaBrokers, ["localhost:9092"]);
    c := Settings(
      ServerConfig(
        GetEnv(env, EnvKeyAPIPort, "8080"),
        GetEnvAsDuration(env, EnvKeyServerReadTimeout, 30 * Second, parseDuration),
        GetEnvAsDuration(env, EnvKeyServerWriteTimeout, 30 * Second, parseDuration),
        GetEnvAsDuration(env, EnvKeyServerIdleTimeout, 60 * Second, parseDuration)),
      DatabaseConfig(
        GetEnv(env, EnvKeyDBHost, "localhost"),
        GetEnv(env, EnvKeyDBPort, "3306"),
        GetEnv(env, EnvKeyDBUser, "root"),
        GetEnv(env, EnvKeyDBPassword, "password"),
        GetEnv(env, EnvKeyDBDatabase, "log_analytics"),
        GetEnvAsInt(env, EnvKeyDBMaxOpenConns, 25),
        GetEnvAsInt(env, EnvKeyDBMaxIdleConns, 5),
        GetEnvAsDuration(env, EnvKeyDBConnMaxLifetime, 5 * Minute, parseDuration)),
      KafkaConfig(
        brokers,
        GetEnv(env, EnvKeyKafkaTopic, "logs"),
        GetEnv(env, EnvKeyKafkaGroupID, "log-processor-final"),
        GetEnv(env, EnvKeyKafkaAutoOffsetReset, "latest"),
        GetEnvAsBool(env, EnvKeyKafkaEnableAutoCommit, true)),
      LogConfig(
        GetEnv(env, EnvKeyLogLevel, "info"),
        GetEnv(env, EnvKeyLogFormat, "json")));
  }

  /** With no variable set, every setting is its default: one instance of
      `Load`'s empty-environment clause and of `EmptyLikeUnset`, spelled out
      for the constants. */
  lemma EmptyEnvironmentDefaults(parseDuration: DurationParser)
    ensures GetEnvAsBool(map[], EnvKeyKafkaEnableAutoCommit, true)
    ensures EnvSlice(map[], EnvKeyKafkaBrokers, Defaults.kafka.brokers) == ["localhost:9092"]
    ensures GetEnvAsInt(map[], EnvKeyDBMaxOpenConns, Defaults.database.maxOpenConns) == 25
    ensures GetEnvAsDuration(map[], EnvKeyDBConnMaxLifetime, Defaults.database.connMaxLifetime, parseDuration) == 300 * Second
  {
  }

  /** Auto-commit stays on unless the variable is one of `strconv.ParseBool`'s
      false spellings. */
  lemma AutoCommitUnlessFalse(env: Env)
    ensures !GetEnvAsBool(env, EnvKeyKafkaEnableAutoCommit, true) <==>
      Lookup(env, EnvKeyKafkaEnableAutoCommit) in {"0", "f", "F", "FALSE", "false", "False"}
  {
  }
}
