/** The records of the log-analytics system (internal/models): log entries and
    the filters over them, alert rules, alerts and the filters over them. */
module Models {
  import opened Common

  // ---------------------------------------------------------------------------
  // Logs

  /** Log levels are Go strings (`type LogLevel string`); these five are the
      ones the schema's enum accepts. */
  type LogLevel = string

  const LevelDebug: LogLevel := "DEBUG"
  const LevelInfo: LogLevel := "INFO"
  const LevelWarn: LogLevel := "WARN"
  const LevelError: LogLevel := "ERROR"
  const LevelFatal: LogLevel := "FATAL"

  predicate KnownLevel(l: LogLevel)
  {
    l in {LevelDebug, LevelInfo, LevelWarn, LevelError, LevelFatal}
  }

  /** One log entry. Optional (nullable) columns are `Option`. */
  datatype Log = Log(
    id: nat,
    timestamp: Time,
    level: LogLevel,
    service: string,
    message: string,
    traceId: Option<string>,
    userId: Option<string>,
    requestMethod: Option<string>,
    requestPath: Option<string>,
    responseStatus: Option<int>,
    responseTimeMs: Option<int>,
    createdAt: Time)

  /** Filters for querying logs: an unset (`None`) filter does not restrict;
      `limit` and `offset` restrict only when positive. */
  datatype LogFilter = LogFilter(
    level: Option<LogLevel>,
    service: Option<string>,
    traceId: Option<string>,
    userId: Option<string>,
    startTime: Option<Time>,
    endTime: Option<Time>,
    search: Option<string>,
    limit: int,
    offset: int)

  const EmptyLogFilter: LogFilter :=
    LogFilter(None, None, None, None, None, None, None, 0, 0)

  // ---------------------------------------------------------------------------
  // Alert rules and alerts

  /** An alert rule. `condition` is the SQL aggregate expression the rule
      evaluates; `timeWindow` is in minutes. */
  datatype AlertRule = AlertRule(
    id: nat,
    name: string,
    description: string,
    condition: string,
    threshold: real,
    timeWindow: int,
    severity: string,
    enabled: bool,
    createdAt: Time,
    updatedAt: Time)

  /** The three values of the `status` column. */
  datatype AlertStatus = Active | Resolved | Acknowledged
  {
    /** The string the column holds. */
    function Name(): string
    {
      match this
      case Active => "active"
      case Resolved => "resolved"
      case Acknowledged => "acknowledged"
    }
  }

  datatype Alert = Alert(
    id: nat,
    ruleId: nat,
    message: string,
    severity: string,
    value: real,
    status: AlertStatus,
    createdAt: Time,
    resolvedAt: Option<Time>,
    acknowledgedAt: Option<Time>)

  /** Filters for querying alerts; every field is optional. */
  datatype AlertFilter = AlertFilter(
    status: Option<string>,
    severity: Option<string>,
    ruleId: Option<nat>,
    from: Option<Time>,
    to: Option<Time>,
    limit: Option<int>,
    offset: Option<int>)

  datatype AlertStats = AlertStats(
    totalAlerts: nat,
    activeAlerts: nat,
    resolvedAlerts: nat,
    criticalAlerts: nat,
    highAlerts: nat,
    mediumAlerts: nat,
    lowAlerts: nat)
}
