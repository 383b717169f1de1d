/** The `logs` table and its repository (internal/database/logs/logs.go):
    inserting one log or a batch, and the filtered, ordered, paginated reads. */
module LogStore {
  import opened Common
  import opened Models
  import opened Queries

  /** MySQL's `MATCH(message) AGAINST(search IN BOOLEAN MODE)`, which the model
      does not define: a predicate on (message, search text) passed in. */
  type FullTextMatch = (string, string) -> bool

  /** The table, holding its rows in insertion order. */
  class LogTable {
    var rows: seq<Log>

    constructor ()
      ensures rows == []
    {
      rows := [];
    }

    /** `CreateLog`: one insert, whose failure `fault` (the database's answer)
        is returned wrapped. */
    method CreateLog(log: Log, fault: Option<Error>) returns (err: Option<Error>)
      modifies this
      ensures err == if fault.Some? then Some(Wrapped("failed to create log", fault.value)) else None
      ensures rows == if fault.Some? then old(rows) else old(rows) + [log]
    {
      if fault.Some? {
        err := Some(Wrapped("failed to create log", fault.value));
      } else {
        rows := rows + [log];
        err := None;
      }
    }

    /** `CreateLogBatch`: an empty batch returns at once without touching the
        table; otherwise one all-or-nothing insert of every log of the batch,
        whose failure is returned wrapped. */
    method CreateLogBatch(logs: seq<Log>, fault: Option<Error>) returns (err: Option<Error>)
      modifies this
      ensures err == BatchInsertError(logs, fault)
      ensures rows == if err.None? then old(rows) + logs else old(rows)
    {
      if |logs| == 0 {
        return None;
      }
      if fault.Some? {
        err := Some(Wrapped("failed to create log batch", fault.value));
      } else {
        rows := rows + logs;
        err := None;
      }
    }
  }

  /** What `CreateLogBatch` returns for a batch, given the database's answer. */
  function BatchInsertError(logs: seq<Log>, fault: Option<Error>): (err: Option<Error>)
    ensures logs == [] ==> err.None?
    ensures logs != [] && fault.Some? ==> err == Some(Wrapped("failed to create log batch", fault.value))
    ensures err.None? <==> logs == [] || fault.None?
  {
    if |logs| == 0 || fault.None? then None
    else Some(Wrapped("failed to create log batch", fault.value))
  }

  // ---------------------------------------------------------------------------
  // Reads

  /** A row satisfies every filter that is set. A NULL `trace_id` or `user_id`
      matches no value. */
  predicate MatchesLog(l: Log, f: LogFilter, fullText: FullTextMatch)
  {
    && (f.level.Some? ==> l.level == f.level.value)
    && (f.service.Some? ==> l.service == f.service.value)
    && (f.traceId.Some? ==> l.traceId == Some(f.traceId.value))
    && (f.userId.Some? ==> l.userId == Some(f.userId.value))
    && (f.startTime.Some? ==> l.timestamp >= f.startTime.value)
    && (f.endTime.Some? ==> l.timestamp <= f.endTime.value)
    && (f.search.Some? ==> fullText(l.message, f.search.value))
  }

  function Matcher(f: LogFilter, fullText: FullTextMatch): Log -> bool
  {
    l => MatchesLog(l, f, fullText)
  }

  /** `ORDER BY timestamp DESC`. */
  predicate NewestFirst(a: Log, b: Log) { a.timestamp >= b.timestamp }

  /** `ORDER BY timestamp ASC`. */
  predicate OldestFirst(a: Log, b: Log) { a.timestamp <= b.timestamp }

  lemma TimestampOrders()
    ensures TotalPreorder(NewestFirst) && TotalPreorder(OldestFirst)
  {
  }

  /** `OFFSET` when positive, then `LIMIT` when positive. */
  function Page(s: seq<Log>, limit: int, offset: int): seq<Log>
  {
    var rest := if offset > 0 then Skip(s, offset) else s;
    if limit > 0 then Take(rest, limit) else rest
  }

  /** How many rows a page of `count` matching rows holds. */
  function PageLength(count: nat, limit: int, offset: int): nat
  {
    var rest := if offset <= 0 then count else if offset <= count then count - offset else 0;
    if 0 < limit < rest then limit else rest
  }

  /** `GetLogs`: the rows that satisfy every filter that is set, newest first,
      then `offset` and `limit` when they are positive; `fault` is the
      database's answer, returned wrapped. */
  function GetLogs(rows: seq<Log>, f: LogFilter, fullText: FullTextMatch, fault: Option<Error>): (r: Result<seq<Log>>)
    ensures r.Err? <==> fault.Some?
    ensures r.Err? ==> r.error == Wrapped("failed to get logs", fault.value)
    ensures r.Ok? ==> forall i :: 0 <= i < |r.value| ==> r.value[i] in rows && MatchesLog(r.value[i], f, fullText)
    ensures r.Ok? ==> SortedBy(NewestFirst, r.value)
    ensures r.Ok? ==> |r.value| == PageLength(|Filter(Matcher(f, fullText), rows)|, f.limit, f.offset)
    ensures r.Ok? && f.limit <= 0 && f.offset <= 0 ==>
              forall x :: multiset(r.value)[x] == if MatchesLog(x, f, fullText) then multiset(rows)[x] else 0
  {
    if fault.Some? then Err(Wrapped("failed to get logs", fault.value))
    else
      MatchingPageMembers(rows, f, fullText);
      MatchingPageOrder(rows, f, fullText);
      Ok(Page(Sort(NewestFirst, Filter(Matcher(f, fullText), rows)), f.limit, f.offset))
  }

  /** The page holds matching rows; it is the whole matching multiset when
      neither `limit` nor `offset` applies. */
  lemma MatchingPageMembers(rows: seq<Log>, f: LogFilter, fullText: FullTextMatch)
    ensures var page := Page(Sort(NewestFirst, Filter(Matcher(f, fullText), rows)), f.limit, f.offset);
      && (forall i :: 0 <= i < |page| ==> page[i] in rows && MatchesLog(page[i], f, fullText))
      && (f.limit <= 0 && f.offset <= 0 ==>
            forall x :: multiset(page)[x] == if MatchesLog(x, f, fullText) then multiset(rows)[x] else 0)
  {
    var matching := Filter(Matcher(f, fullText), rows);
    var sorted := Sort(NewestFirst, matching);
    var page := Page(sorted, f.limit, f.offset);
    PageProperties(sorted, f.limit, f.offset);
    forall i | 0 <= i < |page|
      ensures page[i] in rows && MatchesLog(page[i], f, fullText)
    {
      assert page[i] in multiset(sorted);
      assert page[i] in multiset(matching);
    }
  }

  /** The page is newest first and as long as `limit` and `offset` allow. */
  lemma MatchingPageOrder(rows: seq<Log>, f: LogFilter, fullText: FullTextMatch)
    ensures var page := Page(Sort(NewestFirst, Filter(Matcher(f, fullText), rows)), f.limit, f.offset);
      && SortedBy(NewestFirst, page)
      && |page| == PageLength(|Filter(Matcher(f, fullText), rows)|, f.limit, f.offset)
  {
    var matching := Filter(Matcher(f, fullText), rows);
    var sorted := Sort(NewestFirst, matching);
    TimestampOrders();
    SortSorted(NewestFirst, matching);
    PageSorted(NewestFirst, sorted, f.limit, f.offset);
    PageProperties(sorted, f.limit, f.offset);
    SortKeepsLength(NewestFirst, matching);
  }

  lemma SortKeepsLength(le: (Log, Log) -> bool, s: seq<Log>)
    ensures |Sort(le, s)| == |s|
  {
    assert |multiset(Sort(le, s))| == |multiset(s)|;
  }

  lemma PageProperties(s: seq<Log>, limit: int, offset: int)
    ensures |Page(s, limit, offset)| == PageLength(|s|, limit, offset)
    ensures forall x :: x in Page(s, limit, offset) ==> x in multiset(s)
    ensures limit <= 0 && offset <= 0 ==> Page(s, limit, offset) == s
  {
    var lo := if offset <= 0 then 0 else if offset <= |s| then offset else |s|;
    var rest := if offset > 0 then Skip(s, offset) else s;
    assert rest == s[lo..];
    var hi := if 0 < limit <= |rest| then lo + limit else |s|;
    assert Page(s, limit, offset) == s[lo..hi];
  }

  /** A page of a sorted sequence is sorted. */
  lemma PageSorted(le: (Log, Log) -> bool, s: seq<Log>, limit: int, offset: int)
    requires SortedBy(le, s)
    ensures SortedBy(le, Page(s, limit, offset))
  {
    var lo := if offset <= 0 then 0 else if offset <= |s| then offset else |s|;
    var rest := if offset > 0 then Skip(s, offset) else s;
    assert rest == s[lo..];
    var hi := if 0 < limit <= |rest| then lo + limit else |s|;
    assert Page(s, limit, offset) == s[lo..hi];
    SliceSorted(le, s, lo, hi);
  }

  /** `GetLogsByTraceID`: exactly the rows carrying that trace id, oldest first. */
  function GetLogsByTraceID(rows: seq<Log>, traceId: string, fault: Option<Error>): (r: Result<seq<Log>>)
    ensures r.Err? <==> fault.Some?
    ensures r.Err? ==> r.error == Wrapped("failed to get logs by trace ID", fault.value)
    ensures r.Ok? ==> forall x :: multiset(r.value)[x] == if x.traceId == Some(traceId) then multiset(rows)[x] else 0
    ensures r.Ok? ==> SortedBy(OldestFirst, r.value)
  {
    if fault.Some? then Err(Wrapped("failed to get logs by trace ID", fault.value))
    else
      var matching := Filter((l: Log) => l.traceId == Some(traceId), rows);
      TimestampOrders();
      SortSorted(OldestFirst, matching);
      Ok(Sort(OldestFirst, matching))
  }
}
