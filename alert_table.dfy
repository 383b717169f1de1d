/** The `alerts` table and its repository (internal/database/alerts/alerts.go):
    creating, resolving and acknowledging rows in place, and the read queries. */
module AlertStore {
  import opened Common
  import opened Models
  import opened Queries

  /** Ids are assigned by auto-increment: they rise strictly in row order and
      stay below the next id to assign. */
  predicate IdsIncreasing(rows: seq<Alert>, nextId: nat)
  {
    && (forall i :: 0 <= i < |rows| ==> 1 <= rows[i].id < nextId)
    && (forall i, j :: 0 <= i < j < |rows| ==> rows[i].id < rows[j].id)
  }

  /** The invariant the alert lifecycle is built to keep: no rule has two
      alerts whose status is `active`. */
  predicate AtMostOneActivePerRule(rows: seq<Alert>)
  {
    forall i, j :: 0 <= i < j < |rows| && rows[i].status == Active && rows[j].status == Active ==>
      rows[i].ruleId != rows[j].ruleId
  }

  // ---------------------------------------------------------------------------
  // The updates, as functions of the table

  /** The table after inserting `alert`, which receives the id `nextId`. */
  function Inserted(rows: seq<Alert>, nextId: nat, alert: Alert): (r: seq<Alert>)
    ensures |r| == |rows| + 1 && r[..|rows|] == rows
    ensures r[|rows|] == alert.(id := nextId)
  {
    rows + [alert.(id := nextId)]
  }

  function ResolvedRow(a: Alert, now: Time): Alert
  {
    a.(status := Resolved, resolvedAt := Some(now))
  }

  function AcknowledgedRow(a: Alert, now: Time): Alert
  {
    a.(status := Acknowledged, acknowledgedAt := Some(now))
  }

  /** `UPDATE alerts SET status = 'resolved', resolved_at = now WHERE id = ?`. */
  function ResolvedById(rows: seq<Alert>, id: nat, now: Time): (r: seq<Alert>)
    ensures |r| == |rows|
    ensures forall i :: 0 <= i < |rows| ==> r[i] == if rows[i].id == id then ResolvedRow(rows[i], now) else rows[i]
  {
    seq(|rows|, i requires 0 <= i < |rows| => if rows[i].id == id then ResolvedRow(rows[i], now) else rows[i])
  }

  /** `UPDATE alerts SET status = 'acknowledged', acknowledged_at = now WHERE id = ?`,
      whatever the row's status was. */
  function AcknowledgedById(rows: seq<Alert>, id: nat, now: Time): (r: seq<Alert>)
    ensures |r| == |rows|
    ensures forall i :: 0 <= i < |rows| ==> r[i] == if rows[i].id == id then AcknowledgedRow(rows[i], now) else rows[i]
  {
    seq(|rows|, i requires 0 <= i < |rows| => if rows[i].id == id then AcknowledgedRow(rows[i], now) else rows[i])
  }

  // ---------------------------------------------------------------------------
  // The repository

  class AlertTable {
    var rows: seq<Alert>
    var nextId: nat

    ghost predicate Valid()
      reads this
    {
      nextId >= 1 && IdsIncreasing(rows, nextId)
    }

    constructor ()
      ensures Valid() && rows == [] && nextId == 1
    {
      rows := [];
      nextId := 1;
    }

    /** `CreateAlert`: inserts one row with a fresh id, unless the database
        answers with `fault`, which is returned as it is. */
    method CreateAlert(alert: Alert, fault: Option<Error>) returns (err: Option<Error>)
      requires Valid()
      modifies this
      ensures Valid()
      ensures err == fault
      ensures fault.Some? ==> rows == old(rows) && nextId == old(nextId)
      ensures fault.None? ==> rows == Inserted(old(rows), old(nextId), alert) && nextId == old(nextId) + 1
    {
      err := fault;
      if fault.None? {
        rows := Inserted(rows, nextId, alert);
        nextId := nextId + 1;
      }
    }

    /** `ResolveAlert(id)`. */
    method ResolveAlert(id: nat, now: Time, fault: Option<Error>) returns (err: Option<Error>)
      requires Valid()
      modifies this`rows
      ensures Valid()
      ensures err == fault
      ensures rows == if fault.Some? then old(rows) else ResolvedById(old(rows), id, now)
    {
      err := fault;
      if fault.None? {
        rows := ResolvedById(rows, id, now);
      }
    }

    /** `AcknowledgeAlert(id)`. */
    method AcknowledgeAlert(id: nat, now: Time, fault: Option<Error>) returns (err: Option<Error>)
      requires Valid()
      modifies this`rows
      ensures Valid()
      ensures err == fault
      ensures rows == if fault.Some? then old(rows) else AcknowledgedById(old(rows), id, now)
    {
      err := fault;
      if fault.None? {
        rows := AcknowledgedById(rows, id, now);
      }
    }
  }

  // ---------------------------------------------------------------------------
  // Properties of the updates

  /** Creating adds exactly one row; the existing rows are unchanged. */
  lemma InsertedKeepsRows(rows: seq<Alert>, nextId: nat, alert: Alert)
    requires IdsIncreasing(rows, nextId) && nextId >= 1
    ensures IdsIncreasing(Inserted(rows, nextId, alert), nextId + 1)
    ensures multiset(Inserted(rows, nextId, alert)) == multiset(rows) + multiset{alert.(id := nextId)}
  {
  }

  /** Resolving changes exactly the row with that id (there is at most one):
      its status becomes resolved and `resolved_at` the given instant, even when
      it was already resolved, and nothing else about any row changes. */
  lemma {:induction false} ResolveTouchesOnlyThatRow(rows: seq<Alert>, nextId: nat, id: nat, now: Time, i: nat)
    requires IdsIncreasing(rows, nextId) && i < |rows|
    ensures IdsIncreasing(ResolvedById(rows, id, now), nextId)
    ensures rows[i].id == id ==> ResolvedById(rows, id, now)[i].status == Resolved
                                 && ResolvedById(rows, id, now)[i].resolvedAt == Some(now)
                                 && ResolvedById(rows, id, now)[i].acknowledgedAt == rows[i].acknowledgedAt
                                 && ResolvedById(rows, id, now)[i].createdAt == rows[i].createdAt
    ensures rows[i].id != id ==> ResolvedById(rows, id, now)[i] == rows[i]
    ensures forall j :: 0 <= j < |rows| && j != i && rows[i].id == id ==> ResolvedById(rows, id, now)[j] == rows[j]
  {
    forall j | 0 <= j < |rows| && j != i && rows[i].id == id
      ensures ResolvedById(rows, id, now)[j] == rows[j]
    {
      assert rows[j].id != rows[i].id by {
        if j < i { assert rows[j].id < rows[i].id; } else { assert rows[i].id < rows[j].id; }
      }
    }
  }

  /** Resolving twice gives the state of resolving once at the later instant:
      the status stays resolved and `resolved_at` is overwritten. */
  lemma ResolveTwice(rows: seq<Alert>, id: nat, t1: Time, t2: Time)
    ensures ResolvedById(ResolvedById(rows, id, t1), id, t2) == ResolvedById(rows, id, t2)
  {
  }

  /** Acknowledging does not look at the prior status: a resolved alert
      becomes acknowledged, keeping its `resolved_at`. */
  lemma AcknowledgeResolved(rows: seq<Alert>, id: nat, now: Time, i: nat)
    requires i < |rows| && rows[i].id == id && rows[i].status == Resolved
    ensures AcknowledgedById(rows, id, now)[i].status == Acknowledged
    ensures AcknowledgedById(rows, id, now)[i].resolvedAt == rows[i].resolvedAt
  {
  }

  /** Neither resolving nor acknowledging can break the one-active-alert rule:
      both only ever take rows out of the `active` status. */
  lemma UpdatesKeepAtMostOneActive(rows: seq<Alert>, id: nat, now: Time)
    requires AtMostOneActivePerRule(rows)
    ensures AtMostOneActivePerRule(ResolvedById(rows, id, now))
    ensures AtMostOneActivePerRule(AcknowledgedById(rows, id, now))
  {
  }

  // ---------------------------------------------------------------------------
  // Reads

  /** A row satisfies every filter that is set; the status filter compares
      the column's string. */
  predicate MatchesAlert(a: Alert, f: AlertFilter)
  {
    && (f.status.Some? ==> a.status.Name() == f.status.value)
    && (f.severity.Some? ==> a.severity == f.severity.value)
    && (f.ruleId.Some? ==> a.ruleId == f.ruleId.value)
    && (f.from.Some? ==> a.createdAt >= f.from.value)
    && (f.to.Some? ==> a.createdAt <= f.to.value)
  }

  function AlertMatcher(f: AlertFilter): Alert -> bool
  {
    a => MatchesAlert(a, f)
  }

  /** `ORDER BY created_at DESC`. */
  predicate NewestCreatedFirst(a: Alert, b: Alert) { a.createdAt >= b.createdAt }

  /** `OFFSET` when given and positive, then `LIMIT` when given and not negative. */
  function AlertPage(s: seq<Alert>, limit: Option<int>, offset: Option<int>): seq<Alert>
  {
    var rest := if offset.Some? && offset.value > 0 then Skip(s, offset.value) else s;
    if limit.Some? && limit.value >= 0 then Take(rest, limit.value) else rest
  }

  /** How many alerts a page of `count` matching alerts holds. */
  function AlertPageLength(count: nat, limit: Option<int>, offset: Option<int>): nat
  {
    var rest := if offset.None? || offset.value <= 0 then count else if offset.value <= count then count - offset.value else 0;
    if limit.Some? && 0 <= limit.value < rest then limit.value else rest
  }

  lemma AlertPageProperties(s: seq<Alert>, limit: Option<int>, offset: Option<int>)
    ensures |AlertPage(s, limit, offset)| == AlertPageLength(|s|, limit, offset)
    ensures forall x :: x in AlertPage(s, limit, offset) ==> x in multiset(s)
    ensures SortedBy(NewestCreatedFirst, s) ==> SortedBy(NewestCreatedFirst, AlertPage(s, limit, offset))
    ensures limit.Some? && limit.value >= 0 ==> |AlertPage(s, limit, offset)| <= limit.value
    ensures limit.None? && offset.None? ==> AlertPage(s, limit, offset) == s
  {
    var lo, hi := AlertPageSlice(s, limit, offset);
    if SortedBy(NewestCreatedFirst, s) {
      SliceSorted(NewestCreatedFirst, s, lo, hi);
    }
  }

  /** A page is the slice `s[lo..hi]` holding `AlertPageLength` rows. */
  lemma AlertPageSlice(s: seq<Alert>, limit: Option<int>, offset: Option<int>) returns (lo: nat, hi: nat)
    ensures lo <= hi <= |s| && AlertPage(s, limit, offset) == s[lo..hi]
    ensures hi - lo == AlertPageLength(|s|, limit, offset)
    ensures limit.None? ==> hi == |s|
    ensures offset.None? ==> lo == 0
  {
    lo := if offset.Some? && offset.value > 0 then (if offset.value <= |s| then offset.value else |s|) else 0;
    var rest := if offset.Some? && offset.value > 0 then Skip(s, offset.value) else s;
    assert rest == s[lo..];
    hi := if limit.Some? && 0 <= limit.value <= |rest| then lo + limit.value else |s|;
  }

  /** `GetAlerts`: the rows satisfying every filter that is set, newest first,
      then offset and limit when given; `fault` is the database's answer. */
  function GetAlerts(rows: seq<Alert>, f: AlertFilter, fault: Option<Error>): (r: Result<seq<Alert>>)
    ensures r.Err? <==> fault.Some?
    ensures r.Err? ==> r.error == fault.value
    ensures r.Ok? ==> forall i :: 0 <= i < |r.value| ==> r.value[i] in rows && MatchesAlert(r.value[i], f)
    ensures r.Ok? ==> SortedBy(NewestCreatedFirst, r.value)
    ensures r.Ok? && f.limit.Some? && f.limit.value >= 0 ==> |r.value| <= f.limit.value
    ensures r.Ok? ==> |r.value| == AlertPageLength(|Filter(AlertMatcher(f), rows)|, f.limit, f.offset)
    ensures r.Ok? && f.limit.None? && f.offset.None? ==>
              forall x :: multiset(r.value)[x] == if MatchesAlert(x, f) then multiset(rows)[x] else 0
  {
    if fault.Some? then Err(fault.value)
    else
      var matching := Filter(AlertMatcher(f), rows);
      var sorted := Sort(NewestCreatedFirst, matching);
      SortSorted(NewestCreatedFirst, matching);
      AlertPageProperties(sorted, f.limit, f.offset);
      assert |multiset(sorted)| == |multiset(matching)|;
      var page := AlertPage(sorted, f.limit, f.offset);
      forall i | 0 <= i < |page|
        ensures page[i] in rows && MatchesAlert(page[i], f)
      {
        assert page[i] in multiset(sorted);
        assert page[i] in multiset(matching);
      }
      Ok(page)
  }

  /** The filter the alert evaluator uses: the `active` alerts of one rule. */
  function ActiveOfRule(ruleId: nat): AlertFilter
  {
    AlertFilter(Some("active"), None, Some(ruleId), None, None, None, None)
  }

  /** `GetActiveAlerts`: the `active` rows, newest first. */
  function GetActiveAlerts(rows: seq<Alert>, fault: Option<Error>): (r: Result<seq<Alert>>)
    ensures r.Err? <==> fault.Some?
    ensures r.Ok? ==> forall x :: multiset(r.value)[x] == if x.status == Active then multiset(rows)[x] else 0
    ensures r.Ok? ==> SortedBy(NewestCreatedFirst, r.value)
  {
    if fault.Some? then Err(fault.value)
    else
      var active := Filter((a: Alert) => a.status == Active, rows);
      SortSorted(NewestCreatedFirst, active);
      Ok(Sort(NewestCreatedFirst, active))
  }

  lemma {:induction false} FilterExtensional<T(!new)>(p: T -> bool, q: T -> bool, s: seq<T>)
    requires forall x :: p(x) == q(x)
    ensures Filter(p, s) == Filter(q, s)
  {
    if s != [] {
      FilterExtensional(p, q, s[1..]);
    }
  }

  /** `GetActiveAlerts` is `GetAlerts` with only the status filter `"active"`. */
  lemma ActiveAlertsIsStatusQuery(rows: seq<Alert>, fault: Option<Error>)
    ensures GetActiveAlerts(rows, fault) ==
            GetAlerts(rows, AlertFilter(Some("active"), None, None, None, None, None, None), fault)
  {
    var f := AlertFilter(Some("active"), None, None, None, None, None, None);
    FilterExtensional((a: Alert) => a.status == Active, AlertMatcher(f), rows);
  }

  // ---------------------------------------------------------------------------
  // Statistics

  function CountWhere(p: Alert -> bool, rows: seq<Alert>): nat
  {
    if rows == [] then 0 else (if p(rows[0]) then 1 else 0) + CountWhere(p, rows[1..])
  }

  predicate HasStatus(a: Alert, s: AlertStatus) { a.status == s }

  lemma {:induction false} StatusCountsPartition(rows: seq<Alert>)
    ensures CountWhere((a: Alert) => HasStatus(a, Active), rows) + CountWhere((a: Alert) => HasStatus(a, Resolved), rows)
            + CountWhere((a: Alert) => HasStatus(a, Acknowledged), rows) == |rows|
  {
    if rows != [] {
      StatusCountsPartition(rows[1..]);
    }
  }

  lemma {:induction false} SeverityCountsBounded(rows: seq<Alert>)
    ensures CountWhere((a: Alert) => a.severity == "critical", rows) + CountWhere((a: Alert) => a.severity == "high", rows)
            + CountWhere((a: Alert) => a.severity == "medium", rows) + CountWhere((a: Alert) => a.severity == "low", rows) <= |rows|
  {
    if rows != [] {
      SeverityCountsBounded(rows[1..]);
    }
  }

  /** `GetAlertStats`: total, per-status and per-severity counts; the first
      failing count query's error is returned as it is. Acknowledged alerts are
      counted in the total only. */
  function GetAlertStats(rows: seq<Alert>, fault: Option<Error>): (r: Result<AlertStats>)
    ensures r.Err? <==> fault.Some?
    ensures r.Ok? ==> r.value.totalAlerts == |rows|
    ensures r.Ok? ==> r.value.activeAlerts <= r.value.totalAlerts && r.value.resolvedAlerts <= r.value.totalAlerts
    ensures r.Ok? ==> r.value.totalAlerts - r.value.activeAlerts - r.value.resolvedAlerts
                      == CountWhere((a: Alert) => HasStatus(a, Acknowledged), rows)
    ensures r.Ok? ==> r.value.criticalAlerts + r.value.highAlerts + r.value.mediumAlerts + r.value.lowAlerts
                      <= r.value.totalAlerts
  {
    if fault.Some? then Err(fault.value)
    else
      StatusCountsPartition(rows);
      SeverityCountsBounded(rows);
      Ok(AlertStats(
        |rows|,
        CountWhere((a: Alert) => HasStatus(a, Active), rows),
        CountWhere((a: Alert) => HasStatus(a, Resolved), rows),
        CountWhere((a: Alert) => a.severity == "critical", rows),
        CountWhere((a: Alert) => a.severity == "high", rows),
        CountWhere((a: Alert) => a.severity == "medium", rows),
        CountWhere((a: Alert) => a.severity == "low", rows)))
  }
}
