/** The log HTTP/Kafka handler (internal/handlers/log.go): turning query
    parameters into a `LogFilter`, storing a consumed batch, and collecting
    the services a batch mentions. */
module LogHandlers {
  import opened Common
  import opened Models
  import opened LogStore

  /** The request's query string; Gin's `c.Query(key)` is `""` for a key that
      is missing. */
  type Query = map<string, string>

  function Param(q: Query, key: string): string
  {
    if key in q then q[key] else ""
  }

  /** `time.Parse(time.RFC3339, s)`, which the model does not define. */
  type TimeParser = string -> Option<Time>

  /** The text filters: set exactly when the parameter is non-empty. */
  function TextFilter(q: Query, key: string): (r: Option<string>)
    ensures r.Some? <==> Param(q, key) != ""
    ensures r.Some? ==> r.value == q[key]
  {
    if Param(q, key) != "" then Some(q[key]) else None
  }

  /** `start_time`/`end_time`: a bound only when the text parses; anything
      else is ignored. */
  function TimeBound(q: Query, key: string, parseTime: TimeParser): (t: Option<Time>)
    ensures t.Some? <==> Param(q, key) != "" && parseTime(q[key]).Some?
    ensures t.Some? ==> Some(t.value) == parseTime(q[key])
  {
    if Param(q, key) != "" && parseTime(q[key]).Some? then parseTime(q[key]) else None
  }

  /** `limit`: 100 when missing, the value when a positive integer, otherwise
      0 (no limit). */
  function LimitParam(q: Query): (limit: int)
    ensures limit >= 0
    ensures Param(q, "limit") == "" ==> limit == 100
    ensures Param(q, "limit") != "" ==> (limit > 0 <==> Atoi(q["limit"]).Some? && Atoi(q["limit"]).value > 0)
    ensures Param(q, "limit") != "" && limit > 0 ==> Atoi(q["limit"]) == Some(limit)
  {
    if Param(q, "limit") == "" then 100
    else if Atoi(q["limit"]).Some? && Atoi(q["limit"]).value > 0 then Atoi(q["limit"]).value
    else 0
  }

  /** `offset`: the value when a non-negative integer, otherwise 0. */
  function OffsetParam(q: Query): (offset: int)
    ensures offset >= 0
    ensures (Param(q, "offset") != "" && Atoi(q["offset"]).Some? && Atoi(q["offset"]).value >= 0) ==>
              offset == Atoi(q["offset"]).value
    ensures offset > 0 ==> Param(q, "offset") != "" && Atoi(q["offset"]) == Some(offset)
  {
    if Param(q, "offset") != "" && Atoi(q["offset"]).Some? && Atoi(q["offset"]).value >= 0 then Atoi(q["offset"]).value
    else 0
  }

  /** `GetLogs`' filter construction, field by field: each parameter fills its
      own field as the functions above say, independently of the others. */
  method ParseLogFilter(q: Query, parseTime: TimeParser) returns (f: LogFilter)
    ensures f.level == TextFilter(q, "level") && f.service == TextFilter(q, "service")
    ensures f.traceId == TextFilter(q, "trace_id") && f.userId == TextFilter(q, "user_id")
    ensures f.startTime == TimeBound(q, "start_time", parseTime)
    ensures f.endTime == TimeBound(q, "end_time", parseTime)
    ensures f.search == TextFilter(q, "search")
    ensures f.limit == LimitParam(q)
    ensures f.offset == OffsetParam(q)
  {
    var level, service, traceId, userId, search := None, None, None, None, None;
    if Param(q, "level") != "" {
      level := Some(q["level"]);
    }
    if Param(q, "service") != "" {
      service := Some(q["service"]);
    }
    if Param(q, "trace_id") != "" {
      traceId := Some(q["trace_id"]);
    }
    if Param(q, "user_id") != "" {
      userId := Some(q["user_id"]);
    }
    var startTime := ParseTimeBound(q, "start_time", parseTime);
    var endTime := ParseTimeBound(q, "end_time", parseTime);
    if Param(q, "search") != "" {
      search := Some(q["search"]);
    }
    var limit := ParseLimit(q);
    var offset := ParseOffset(q);
    f := LogFilter(level, service, traceId, userId, startTime, endTime, search, limit, offset);
  }

  /** The `start_time`/`end_time` blocks of `GetLogs`. */
  method ParseTimeBound(q: Query, key: string, parseTime: TimeParser) returns (t: Option<Time>)
    ensures t == TimeBound(q, key, parseTime)
  {
    t := None;
    if Param(q, key) != "" {
      var parsed := parseTime(q[key]);
      if parsed.Some? {
        t := parsed;
      }
    }
  }

  /** The `limit` block of `GetLogs`. */
  method ParseLimit(q: Query) returns (limit: int)
    ensures limit == LimitParam(q)
  {
    limit := 0;
    if Param(q, "limit") != "" {
      var parsed := Atoi(q["limit"]);
      if parsed.Some? && parsed.value > 0 {
        limit := parsed.value;
      }
    } else {
      limit := 100;
    }
  }

  /** The `offset` block of `GetLogs`. */
  method ParseOffset(q: Query) returns (offset: int)
    ensures offset == OffsetParam(q)
  {
    offset := 0;
    if Param(q, "offset") != "" {
      var parsed := Atoi(q["offset"]);
      if parsed.Some? && parsed.value >= 0 {
        offset := parsed.value;
      }
    }
  }

  /** A request without parameters asks for the first 100 logs, unfiltered:
      one instance of the contracts of `TextFilter`, `TimeBound`, `LimitParam`
      and `OffsetParam`. */
  lemma NoParametersDefaultFilter(parseTime: TimeParser)
    ensures LogFilter(TextFilter(map[], "level"), TextFilter(map[], "service"), TextFilter(map[], "trace_id"),
                      TextFilter(map[], "user_id"), TimeBound(map[], "start_time", parseTime),
                      TimeBound(map[], "end_time", parseTime), TextFilter(map[], "search"),
                      LimitParam(map[]), OffsetParam(map[]))
            == EmptyLogFilter.(limit := 100)
  {
  }

  /** `HandleLogBatch`: stores the batch through the repository and returns the
      repository's error as it is. */
  method HandleLogBatch(repo: LogTable, logs: seq<Log>, fault: Option<Error>) returns (err: Option<Error>)
    modifies repo
    ensures err == BatchInsertError(logs, fault)
    ensures repo.rows == if err.None? then old(repo.rows) + logs else old(repo.rows)
  {
    err := repo.CreateLogBatch(logs, fault);
  }

  /** The services a batch mentions. */
  function ServicesOf(logs: seq<Log>): set<string>
  {
    set i | 0 <= i < |logs| :: logs[i].service
  }

  /** `getUniqueServices`: each service of the batch once, in no particular order. */
  method GetUniqueServices(logs: seq<Log>) returns (result: seq<string>)
    ensures forall i, j :: 0 <= i < j < |result| ==> result[i] != result[j]
    ensures forall s :: s in result <==> s in ServicesOf(logs)
    ensures |result| == |ServicesOf(logs)|
  {
    var services: set<string> := {};
    for k := 0 to |logs|
      invariant services == ServicesOf(logs[..k])
    {
      assert logs[..k + 1] == logs[..k] + [logs[k]];
      services := services + {logs[k].service};
    }
    assert logs[..|logs|] == logs;
    result := [];
    var rest := services;
    while rest != {}
      invariant rest <= services
      invariant forall s :: s in result <==> s in services && s !in rest
      invariant forall i, j :: 0 <= i < j < |result| ==> result[i] != result[j]
      invariant |result| + |rest| == |services|
      decreases |rest|
    {
      var s :| s in rest;
      result := result + [s];
      rest := rest - {s};
    }
  }
}
