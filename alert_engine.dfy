/** The alert evaluator (internal/services/alert_service.go): each cycle reads
    every alert rule, runs each enabled rule's aggregate over the recent logs,
    opens an alert when the value reaches the threshold and the rule has no
    active alert, and resolves the rule's active alerts when it falls below. */
module AlertEngine {
  import opened Common
  import opened Models
  import opened Queries
  import opened AlertStore

  /** What the rule's aggregate query (`QueryRowContext(...).Scan`) gives:
      no row, an error, or a number. */
  datatype QueryResult = NoRows | QueryErr(error: Error) | Value(v: real)

  /** What the rest of the system answers during one cycle: the aggregate for a
      condition over the logs created since an instant; the text of a new
      alert's message; and the errors the alert table returns, keyed by rule id
      for the active-alert lookup and for creation, by alert id for resolution. */
  datatype Backend = Backend(
    aggregate: (string, Time) -> QueryResult,
    message: (AlertRule, real) -> string,
    lookupFaults: map<nat, Error>,
    createFaults: map<nat, Error>,
    resolveFaults: map<nat, Error>)

  function FaultOf(faults: map<nat, Error>, key: nat): Option<Error>
  {
    if key in faults then Some(faults[key]) else None
  }

  /** `buildQuery`'s window start: `TimeWindow` minutes before now, written
      with whole seconds only (the layout "2006-01-02 15:04:05"). */
  function WindowStart(now: Time, rule: AlertRule): (t: Time)
    ensures t <= now - rule.timeWindow * Minute < t + Second
    ensures t % Second == 0
  {
    var exact := now - rule.timeWindow * Minute;
    exact - exact % Second
  }

  /** The alert opened for a rule whose aggregate reached `value`. */
  function NewAlert(rule: AlertRule, value: real, now: Time, b: Backend): Alert
  {
    Alert(0, rule.id, b.message(rule, value), rule.severity, value, Active, now, None, None)
  }

  /** The alert table and the error `evaluateRule` returns. */
  datatype Outcome = Outcome(rows: seq<Alert>, nextId: nat, err: Option<Error>)

  /** The table after `ResolveAlert` on each alert of `alerts` in turn; a
      resolution that fails is skipped and the loop goes on. */
  function ResolveAll(rows: seq<Alert>, alerts: seq<Alert>, now: Time, faults: map<nat, Error>): seq<Alert>
  {
    if alerts == [] then rows
    else
      var before := ResolveAll(rows, alerts[..|alerts| - 1], now, faults);
      var id := alerts[|alerts| - 1].id;
      if id in faults then before else ResolvedById(before, id, now)
  }

  /** `evaluateRule` on a table. */
  function Evaluate(rows: seq<Alert>, nextId: nat, rule: AlertRule, now: Time, b: Backend): Outcome
  {
    match b.aggregate(rule.condition, WindowStart(now, rule))
    case NoRows => Outcome(rows, nextId, None)
    case QueryErr(e) => Outcome(rows, nextId, Some(Wrapped("failed to execute alert query", e)))
    case Value(v) =>
      var lookup := GetAlerts(rows, ActiveOfRule(rule.id), FaultOf(b.lookupFaults, rule.id));
      if lookup.Err? then Outcome(rows, nextId, Some(Wrapped("failed to check existing alerts", lookup.error)))
      else Decide(rows, nextId, rule, v, lookup.value, now, b)
  }

  /** What `evaluateRule` does once it has the value and the rule's active
      alerts `found`: open an alert if none is active and the value reaches the
      threshold, resolve the found alerts if it is below. */
  function Decide(rows: seq<Alert>, nextId: nat, rule: AlertRule, v: real, found: seq<Alert>, now: Time, b: Backend): Outcome
  {
    if v >= rule.threshold then
      if |found| > 0 then Outcome(rows, nextId, None)
      else if rule.id in b.createFaults then
        Outcome(rows, nextId, Some(Wrapped("failed to create alert", b.createFaults[rule.id])))
      else Outcome(Inserted(rows, nextId, NewAlert(rule, v, now, b)), nextId + 1, None)
    else Outcome(ResolveAll(rows, found, now, b.resolveFaults), nextId, None)
  }

  /** The loop of `CheckAlertRules` over the fetched rules: disabled rules are
      skipped, and a rule's error is only logged, so every later rule is still
      evaluated. */
  function EvaluateAll(rows: seq<Alert>, nextId: nat, rules: seq<AlertRule>, now: Time, b: Backend): Outcome
  {
    if rules == [] then Outcome(rows, nextId, None)
    else
      var before := EvaluateAll(rows, nextId, rules[..|rules| - 1], now, b);
      var rule := rules[|rules| - 1];
      if !rule.enabled then before
      else Evaluate(before.rows, before.nextId, rule, now, b).(err := None)
  }

  /** `CheckAlertRules`: when the rules cannot be read, nothing is evaluated
      and the error is returned wrapped; otherwise every rule is evaluated and
      the cycle succeeds. */
  function CheckCycle(rows: seq<Alert>, nextId: nat, rules: Result<seq<AlertRule>>, now: Time, b: Backend): Outcome
  {
    if rules.Err? then Outcome(rows, nextId, Some(Wrapped("failed to get alert rules", rules.error)))
    else EvaluateAll(rows, nextId, rules.value, now, b)
  }

  // ---------------------------------------------------------------------------
  // Resolution

  /** The ids a resolution loop resolves: those it visits whose update succeeds. */
  function ResolvedIds(alerts: seq<Alert>, faults: map<nat, Error>): set<nat>
  {
    set j | 0 <= j < |alerts| && alerts[j].id !in faults :: alerts[j].id
  }

  /** The loop resolves exactly the rows whose id it visited without a fault,
      and leaves every other row as it was. */
  lemma {:induction false} ResolveAllRows(rows: seq<Alert>, alerts: seq<Alert>, now: Time, faults: map<nat, Error>)
    ensures |ResolveAll(rows, alerts, now, faults)| == |rows|
    ensures forall i :: 0 <= i < |rows| ==>
      ResolveAll(rows, alerts, now, faults)[i] ==
        if rows[i].id in ResolvedIds(alerts, faults) then ResolvedRow(rows[i], now) else rows[i]
  {
    if alerts != [] {
      var init := alerts[..|alerts| - 1];
      ResolveAllRows(rows, init, now, faults);
      var last := alerts[|alerts| - 1];
      assert ResolvedIds(alerts, faults) == ResolvedIds(init, faults) + (if last.id in faults then {} else {last.id}) by {
        forall x | x in ResolvedIds(alerts, faults)
          ensures x in ResolvedIds(init, faults) + (if last.id in faults then {} else {last.id})
        {
          var j :| 0 <= j < |alerts| && alerts[j].id !in faults && alerts[j].id == x;
          if j < |init| { assert init[j] == alerts[j]; }
        }
        forall x | x in ResolvedIds(init, faults)
          ensures x in ResolvedIds(alerts, faults)
        {
          var j :| 0 <= j < |init| && init[j].id !in faults && init[j].id == x;
          assert alerts[j] == init[j];
        }
        if last.id !in faults {
          assert alerts[|alerts| - 1].id in ResolvedIds(alerts, faults);
        }
      }
    }
  }

  // ---------------------------------------------------------------------------
  // One evaluation

  /** The lookup's filter keeps exactly the active alerts of the rule. */
  lemma MatchesActiveOfRule(a: Alert, ruleId: nat)
    ensures MatchesAlert(a, ActiveOfRule(ruleId)) <==> a.ruleId == ruleId && a.status == Active
  {
    if a.status != Active {
      assert |a.status.Name()| != |"active"|;
    }
  }

  /** An empty answer to the active-alert lookup means the rule has no active alert. */
  lemma EmptyLookupNoActive(rows: seq<Alert>, rule: AlertRule, fault: Option<Error>)
    requires GetAlerts(rows, ActiveOfRule(rule.id), fault).Ok?
    ensures GetAlerts(rows, ActiveOfRule(rule.id), fault).value == [] <==>
            forall i :: 0 <= i < |rows| ==> !(rows[i].ruleId == rule.id && rows[i].status == Active)
  {
    var r := GetAlerts(rows, ActiveOfRule(rule.id), fault).value;
    if r == [] {
      forall i | 0 <= i < |rows| ensures !(rows[i].ruleId == rule.id && rows[i].status == Active) {
        MatchesActiveOfRule(rows[i], rule.id);
        assert multiset(rows)[rows[i]] > 0;
        assert multiset(r)[rows[i]] == 0;
      }
    } else {
      LookupIsActiveOfRule(rows, rule, fault, 0);
      var i :| 0 <= i < |rows| && rows[i] == r[0];
    }
  }

  /** The rows the lookup returns are the active alerts of the rule. */
  lemma LookupIsActiveOfRule(rows: seq<Alert>, rule: AlertRule, fault: Option<Error>, j: nat)
    requires GetAlerts(rows, ActiveOfRule(rule.id), fault).Ok?
    requires j < |GetAlerts(rows, ActiveOfRule(rule.id), fault).value|
    ensures var a := GetAlerts(rows, ActiveOfRule(rule.id), fault).value[j];
      a in rows && a.ruleId == rule.id && a.status == Active
  {
    var a := GetAlerts(rows, ActiveOfRule(rule.id), fault).value[j];
    assert MatchesAlert(a, ActiveOfRule(rule.id));
    assert a.status.Name() == "active";
  }

  /** Resolving alerts that are all active alerts of one rule touches only
      the rule's active alerts: each row is either unchanged or was an active
      alert of the rule and is now resolved. */
  lemma ResolveOnlyFound(rows: seq<Alert>, nextId: nat, found: seq<Alert>, ruleId: nat, now: Time, faults: map<nat, Error>)
    requires IdsIncreasing(rows, nextId)
    requires forall j :: 0 <= j < |found| ==> found[j] in rows && found[j].ruleId == ruleId && found[j].status == Active
    ensures var out := ResolveAll(rows, found, now, faults);
      && |out| == |rows|
      && (forall i :: 0 <= i < |rows| ==>
            out[i] == rows[i] || (rows[i].ruleId == ruleId && rows[i].status == Active && out[i] == ResolvedRow(rows[i], now)))
  {
    ResolveAllRows(rows, found, now, faults);
    forall i | 0 <= i < |rows| && rows[i].id in ResolvedIds(found, faults)
      ensures rows[i].ruleId == ruleId && rows[i].status == Active
    {
      var j :| 0 <= j < |found| && found[j].id !in faults && found[j].id == rows[i].id;
      var k :| 0 <= k < |rows| && rows[k] == found[j];
    }
  }

  /** Resolving, without faults, every active alert of a rule leaves none of
      them active. */
  lemma ResolveAllFound(rows: seq<Alert>, found: seq<Alert>, ruleId: nat, now: Time)
    requires forall i :: 0 <= i < |rows| && rows[i].ruleId == ruleId && rows[i].status == Active ==> rows[i] in found
    ensures var out := ResolveAll(rows, found, now, map[]);
      |out| == |rows| && forall i :: 0 <= i < |rows| ==> !(out[i].ruleId == ruleId && out[i].status == Active)
  {
    ResolveAllRows(rows, found, now, map[]);
    forall i | 0 <= i < |rows| && rows[i].ruleId == ruleId && rows[i].status == Active
      ensures rows[i].id in ResolvedIds(found, map[])
    {
      var j :| 0 <= j < |found| && found[j] == rows[i];
    }
  }

  /** `found` holds the active alerts of the rule, and only them. */
  predicate FoundActiveOf(rows: seq<Alert>, found: seq<Alert>, ruleId: nat)
  {
    && (forall j :: 0 <= j < |found| ==> found[j] in rows && found[j].ruleId == ruleId && found[j].status == Active)
    && (forall i :: 0 <= i < |rows| && rows[i].ruleId == ruleId && rows[i].status == Active ==> rows[i] in found)
  }

  /** What the lookup returns: exactly the active alerts of the rule. */
  lemma LookupFound(rows: seq<Alert>, rule: AlertRule, fault: Option<Error>)
    requires GetAlerts(rows, ActiveOfRule(rule.id), fault).Ok?
    ensures FoundActiveOf(rows, GetAlerts(rows, ActiveOfRule(rule.id), fault).value, rule.id)
  {
    var found := GetAlerts(rows, ActiveOfRule(rule.id), fault).value;
    forall j | 0 <= j < |found| ensures found[j] in rows && found[j].ruleId == rule.id && found[j].status == Active {
      LookupIsActiveOfRule(rows, rule, fault, j);
    }
    forall i | 0 <= i < |rows| && rows[i].ruleId == rule.id && rows[i].status == Active
      ensures rows[i] in found
    {
      assert MatchesAlert(rows[i], ActiveOfRule(rule.id));
      assert multiset(found)[rows[i]] == multiset(rows)[rows[i]] > 0;
    }
  }

  /** A table changed only by resolving some active alerts keeps its invariants. */
  lemma ResolvingKeepsInvariants(rows: seq<Alert>, out: seq<Alert>, nextId: nat, ruleId: nat, now: Time)
    requires IdsIncreasing(rows, nextId) && AtMostOneActivePerRule(rows) && |out| == |rows|
    requires forall i :: 0 <= i < |rows| ==>
      out[i] == rows[i] || (rows[i].ruleId == ruleId && rows[i].status == Active && out[i] == ResolvedRow(rows[i], now))
    ensures IdsIncreasing(out, nextId) && AtMostOneActivePerRule(out)
  {
  }

  /** Below the threshold, only the rule's active alerts change, each to
      resolved; with no resolution fault none of them stays active. */
  lemma DecideBelow(rows: seq<Alert>, nextId: nat, rule: AlertRule, v: real, found: seq<Alert>, now: Time, b: Backend)
    requires IdsIncreasing(rows, nextId) && FoundActiveOf(rows, found, rule.id) && v < rule.threshold
    ensures var o := Decide(rows, nextId, rule, v, found, now, b);
      && o.err.None? && o.nextId == nextId && |o.rows| == |rows|
      && (forall i :: 0 <= i < |rows| ==>
            o.rows[i] == rows[i] || (rows[i].ruleId == rule.id && rows[i].status == Active && o.rows[i] == ResolvedRow(rows[i], now)))
      && (b.resolveFaults == map[] ==> forall i :: 0 <= i < |rows| ==> !(o.rows[i].ruleId == rule.id && o.rows[i].status == Active))
  {
    ResolveOnlyFound(rows, nextId, found, rule.id, now, b.resolveFaults);
    if b.resolveFaults == map[] {
      ResolveAllFound(rows, found, rule.id, now);
    }
  }

  /** At or over the threshold: a new active alert exactly when none was
      found and creation succeeds; otherwise no change. */
  lemma DecideAtOrAbove(rows: seq<Alert>, nextId: nat, rule: AlertRule, v: real, found: seq<Alert>, now: Time, b: Backend)
    requires FoundActiveOf(rows, found, rule.id) && v >= rule.threshold
    ensures var o := Decide(rows, nextId, rule, v, found, now, b);
      var noActive := forall i :: 0 <= i < |rows| ==> !(rows[i].ruleId == rule.id && rows[i].status == Active);
      && (noActive && rule.id !in b.createFaults ==>
            o == Outcome(rows + [Alert(nextId, rule.id, b.message(rule, v), rule.severity, v, Active, now, None, None)], nextId + 1, None))
      && (noActive && rule.id in b.createFaults ==>
            o == Outcome(rows, nextId, Some(Wrapped("failed to create alert", b.createFaults[rule.id]))))
      && (!noActive ==> o == Outcome(rows, nextId, None))
  {
    if found != [] {
      assert found[0] in rows;
    }
  }

  /** One decision keeps the invariants. */
  lemma DecideKeepsInvariants(rows: seq<Alert>, nextId: nat, rule: AlertRule, v: real, found: seq<Alert>, now: Time, b: Backend)
    requires nextId >= 1 && IdsIncreasing(rows, nextId) && AtMostOneActivePerRule(rows) && FoundActiveOf(rows, found, rule.id)
    ensures var o := Decide(rows, nextId, rule, v, found, now, b);
      o.nextId >= 1 && IdsIncreasing(o.rows, o.nextId) && AtMostOneActivePerRule(o.rows)
  {
    if v >= rule.threshold {
      DecideAtOrAbove(rows, nextId, rule, v, found, now, b);
      InsertedKeepsRows(rows, nextId, NewAlert(rule, v, now, b));
    } else {
      DecideBelow(rows, nextId, rule, v, found, now, b);
      ResolvingKeepsInvariants(rows, Decide(rows, nextId, rule, v, found, now, b).rows, nextId, rule.id, now);
    }
  }

  /** One evaluation keeps the table's ids in order and keeps at most one
      active alert per rule: it opens an alert only when the lookup found none
      active for the rule, and resolving only takes rows out of `active`. */
  lemma EvaluateKeepsInvariants(rows: seq<Alert>, nextId: nat, rule: AlertRule, now: Time, b: Backend)
    requires nextId >= 1 && IdsIncreasing(rows, nextId) && AtMostOneActivePerRule(rows)
    ensures var o := Evaluate(rows, nextId, rule, now, b);
      o.nextId >= 1 && IdsIncreasing(o.rows, o.nextId) && AtMostOneActivePerRule(o.rows)
  {
    var q := b.aggregate(rule.condition, WindowStart(now, rule));
    var lookup := GetAlerts(rows, ActiveOfRule(rule.id), FaultOf(b.lookupFaults, rule.id));
    if q.Value? && lookup.Ok? {
      assert Evaluate(rows, nextId, rule, now, b) == Decide(rows, nextId, rule, q.v, lookup.value, now, b);
      LookupFound(rows, rule, FaultOf(b.lookupFaults, rule.id));
      DecideKeepsInvariants(rows, nextId, rule, q.v, lookup.value, now, b);
    }
  }

  /** The outcomes of one evaluation, as `evaluateRule` promises them. */
  lemma EvaluateOutcomes(rows: seq<Alert>, nextId: nat, rule: AlertRule, now: Time, b: Backend)
    requires IdsIncreasing(rows, nextId)
    ensures var o := Evaluate(rows, nextId, rule, now, b);
      var q := b.aggregate(rule.condition, WindowStart(now, rule));
      var noActive := forall i :: 0 <= i < |rows| ==> !(rows[i].ruleId == rule.id && rows[i].status == Active);
      // no data, or a failing query: nothing changes; only the failure is an error
      && (q.NoRows? ==> o == Outcome(rows, nextId, None))
      && (q.QueryErr? ==> o == Outcome(rows, nextId, Some(Wrapped("failed to execute alert query", q.error))))
      // the lookup fails: nothing changes, and the error says so
      && (q.Value? && rule.id in b.lookupFaults ==>
            o == Outcome(rows, nextId, Some(Wrapped("failed to check existing alerts", b.lookupFaults[rule.id]))))
      // at or over the threshold with no active alert: exactly one new active alert
      && (q.Value? && q.v >= rule.threshold && rule.id !in b.lookupFaults && noActive && rule.id !in b.createFaults ==>
            o == Outcome(rows + [Alert(nextId, rule.id, b.message(rule, q.v), rule.severity, q.v, Active, now, None, None)], nextId + 1, None))
      // at or over the threshold with no active alert, but creation fails: no change, and the error says so
      && (q.Value? && q.v >= rule.threshold && rule.id !in b.lookupFaults && noActive && rule.id in b.createFaults ==>
            o == Outcome(rows, nextId, Some(Wrapped("failed to create alert", b.createFaults[rule.id]))))
      // at or over the threshold with an active alert: no change at all
      && (q.Value? && q.v >= rule.threshold && rule.id !in b.lookupFaults && !noActive ==>
            o == Outcome(rows, nextId, None))
      // below the threshold: only the rule's active alerts change, to resolved
      && (q.Value? && q.v < rule.threshold && rule.id !in b.lookupFaults ==>
            && o.err.None? && o.nextId == nextId && |o.rows| == |rows|
            && (forall i :: 0 <= i < |rows| ==>
                  o.rows[i] == rows[i] || (rows[i].ruleId == rule.id && rows[i].status == Active && o.rows[i] == ResolvedRow(rows[i], now)))
            && (b.resolveFaults == map[] ==> forall i :: 0 <= i < |rows| ==> !(o.rows[i].ruleId == rule.id && o.rows[i].status == Active)))
  {
    var q := b.aggregate(rule.condition, WindowStart(now, rule));
    var lookup := GetAlerts(rows, ActiveOfRule(rule.id), FaultOf(b.lookupFaults, rule.id));
    if q.Value? && lookup.Ok? {
      assert Evaluate(rows, nextId, rule, now, b) == Decide(rows, nextId, rule, q.v, lookup.value, now, b);
      LookupFound(rows, rule, FaultOf(b.lookupFaults, rule.id));
      if q.v >= rule.threshold {
        DecideAtOrAbove(rows, nextId, rule, q.v, lookup.value, now, b);
      } else {
        DecideBelow(rows, nextId, rule, q.v, lookup.value, now, b);
      }
    }
  }

  /** Every alert that is not an active alert of the evaluated rule (the
      rule's acknowledged and resolved alerts, and every alert of other rules)
      is left exactly as it was. */
  lemma EvaluateLeavesOthers(rows: seq<Alert>, nextId: nat, rule: AlertRule, now: Time, b: Backend, i: nat)
    requires IdsIncreasing(rows, nextId) && i < |rows|
    requires !(rows[i].ruleId == rule.id && rows[i].status == Active)
    ensures var o := Evaluate(rows, nextId, rule, now, b);
      i < |o.rows| && o.rows[i] == rows[i]
  {
    var q := b.aggregate(rule.condition, WindowStart(now, rule));
    var lookup := GetAlerts(rows, ActiveOfRule(rule.id), FaultOf(b.lookupFaults, rule.id));
    if q.Value? && lookup.Ok? {
      assert Evaluate(rows, nextId, rule, now, b) == Decide(rows, nextId, rule, q.v, lookup.value, now, b);
      LookupFound(rows, rule, FaultOf(b.lookupFaults, rule.id));
      if q.v < rule.threshold {
        DecideBelow(rows, nextId, rule, q.v, lookup.value, now, b);
      }
    }
  }

  /** Only an `active` alert blocks a new one: when every alert of the rule
      is acknowledged or resolved, a value at or over the threshold opens a
      new active alert, and every existing row stays as it was. */
  lemma AcknowledgedDoesNotBlock(rows: seq<Alert>, nextId: nat, rule: AlertRule, v: real, now: Time, b: Backend)
    requires IdsIncreasing(rows, nextId)
    requires forall i :: 0 <= i < |rows| && rows[i].ruleId == rule.id ==>
      rows[i].status == Acknowledged || rows[i].status == Resolved
    requires b.aggregate(rule.condition, WindowStart(now, rule)) == Value(v) && v >= rule.threshold
    requires rule.id !in b.lookupFaults && rule.id !in b.createFaults
    ensures Evaluate(rows, nextId, rule, now, b) ==
      Outcome(rows + [Alert(nextId, rule.id, b.message(rule, v), rule.severity, v, Active, now, None, None)], nextId + 1, None)
  {
    EvaluateOutcomes(rows, nextId, rule, now, b);
  }

  // ---------------------------------------------------------------------------
  // One cycle

  /** Once the rules were read, the cycle reports no error. */
  lemma {:induction false} EvaluateAllSucceeds(rows: seq<Alert>, nextId: nat, rules: seq<AlertRule>, now: Time, b: Backend)
    ensures EvaluateAll(rows, nextId, rules, now, b).err.None?
  {
    if rules != [] {
      EvaluateAllSucceeds(rows, nextId, rules[..|rules| - 1], now, b);
    }
  }

  /** A whole cycle keeps the invariants, and never reports an error once the
      rules were read. */
  lemma {:induction false} EvaluateAllKeepsInvariants(rows: seq<Alert>, nextId: nat, rules: seq<AlertRule>, now: Time, b: Backend)
    requires nextId >= 1 && IdsIncreasing(rows, nextId) && AtMostOneActivePerRule(rows)
    ensures var o := EvaluateAll(rows, nextId, rules, now, b);
      o.nextId >= 1 && IdsIncreasing(o.rows, o.nextId) && AtMostOneActivePerRule(o.rows) && o.err.None?
  {
    if rules != [] {
      var init := rules[..|rules| - 1];
      EvaluateAllKeepsInvariants(rows, nextId, init, now, b);
      var before := EvaluateAll(rows, nextId, init, now, b);
      EvaluateKeepsInvariants(before.rows, before.nextId, rules[|rules| - 1], now, b);
    }
  }

  /** `CheckAlertRules`: a failed read of the rules changes nothing and is
      returned; otherwise the cycle succeeds and keeps the invariants. */
  lemma CheckCycleOutcome(rows: seq<Alert>, nextId: nat, rules: Result<seq<AlertRule>>, now: Time, b: Backend)
    requires nextId >= 1 && IdsIncreasing(rows, nextId) && AtMostOneActivePerRule(rows)
    ensures var o := CheckCycle(rows, nextId, rules, now, b);
      && (rules.Err? ==> o == Outcome(rows, nextId, Some(Wrapped("failed to get alert rules", rules.error))))
      && (rules.Ok? ==> o.err.None?)
      && o.nextId >= 1 && IdsIncreasing(o.rows, o.nextId) && AtMostOneActivePerRule(o.rows)
  {
    if rules.Ok? {
      EvaluateAllKeepsInvariants(rows, nextId, rules.value, now, b);
    }
  }

  /** A disabled rule is skipped: appending it to the rule list changes nothing. */
  lemma DisabledSkipped(rows: seq<Alert>, nextId: nat, rules: seq<AlertRule>, rule: AlertRule, now: Time, b: Backend)
    requires !rule.enabled
    ensures EvaluateAll(rows, nextId, rules + [rule], now, b) == EvaluateAll(rows, nextId, rules, now, b)
  {
    assert (rules + [rule])[..|rules|] == rules;
  }

  /** A rule whose evaluation fails does not stop the next rule: the next
      rule is evaluated on the table the failing one left. */
  lemma FailureDoesNotStopCycle(rows: seq<Alert>, nextId: nat, rules: seq<AlertRule>, r1: AlertRule, r2: AlertRule, now: Time, b: Backend)
    requires r1.enabled && r2.enabled
    ensures var before := EvaluateAll(rows, nextId, rules, now, b);
      var mid := Evaluate(before.rows, before.nextId, r1, now, b);
      EvaluateAll(rows, nextId, rules + [r1, r2], now, b) == Evaluate(mid.rows, mid.nextId, r2, now, b).(err := None)
  {
    EvaluateAllEnabled(rows, nextId, rules, r1, now, b);
    assert rules + [r1, r2] == (rules + [r1]) + [r2];
    EvaluateAllEnabled(rows, nextId, rules + [r1], r2, now, b);
  }

  /** An enabled rule at the end of the list is evaluated on the table the
      earlier rules left, and its error is dropped. */
  lemma EvaluateAllEnabled(rows: seq<Alert>, nextId: nat, rules: seq<AlertRule>, r: AlertRule, now: Time, b: Backend)
    requires r.enabled
    ensures var before := EvaluateAll(rows, nextId, rules, now, b);
      EvaluateAll(rows, nextId, rules + [r], now, b) == Evaluate(before.rows, before.nextId, r, now, b).(err := None)
  {
    assert (rules + [r])[..|rules|] == rules;
  }

  // ---------------------------------------------------------------------------
  // The service

  /** `AlertService`, over the alert table it writes to. */
  class AlertService {
    const alerts: AlertTable

    constructor (alerts: AlertTable)
      ensures this.alerts == alerts
    {
      this.alerts := alerts;
    }

    /** `evaluateRule`. */
    method EvaluateRule(rule: AlertRule, now: Time, b: Backend) returns (err: Option<Error>)
      requires alerts.Valid()
      modifies alerts
      ensures alerts.Valid()
      ensures var o := Evaluate(old(alerts.rows), old(alerts.nextId), rule, now, b);
        alerts.rows == o.rows && alerts.nextId == o.nextId && err == o.err
    {
      var result := b.aggregate(rule.condition, WindowStart(now, rule));
      if result.NoRows? {
        return None;
      }
      if result.QueryErr? {
        return Some(Wrapped("failed to execute alert query", result.error));
      }
      var lookup := GetAlerts(alerts.rows, ActiveOfRule(rule.id), FaultOf(b.lookupFaults, rule.id));
      if lookup.Err? {
        return Some(Wrapped("failed to check existing alerts", lookup.error));
      }
      err := Act(rule, result.v, lookup.value, now, b);
    }

    /** The threshold comparison and what follows it. */
    method Act(rule: AlertRule, v: real, activeAlerts: seq<Alert>, now: Time, b: Backend) returns (err: Option<Error>)
      requires alerts.Valid()
      modifies alerts
      ensures alerts.Valid()
      ensures var o := Decide(old(alerts.rows), old(alerts.nextId), rule, v, activeAlerts, now, b);
        alerts.rows == o.rows && alerts.nextId == o.nextId && err == o.err
    {
      err := None;
      if v >= rule.threshold {
        if |activeAlerts| == 0 {
          var alert := NewAlert(rule, v, now, b);
          var createErr := alerts.CreateAlert(alert, FaultOf(b.createFaults, rule.id));
          if createErr.Some? {
            err := Some(Wrapped("failed to create alert", createErr.value));
          }
        }
      } else {
        ResolveEach(activeAlerts, now, b.resolveFaults);
      }
    }

    /** The loop of `evaluateRule` that resolves each alert the lookup found;
        a failure is only logged. */
    method ResolveEach(activeAlerts: seq<Alert>, now: Time, faults: map<nat, Error>)
      requires alerts.Valid()
      modifies alerts
      ensures alerts.Valid() && alerts.nextId == old(alerts.nextId)
      ensures alerts.rows == ResolveAll(old(alerts.rows), activeAlerts, now, faults)
    {
      for i := 0 to |activeAlerts|
        invariant alerts.Valid() && alerts.nextId == old(alerts.nextId)
        invariant alerts.rows == ResolveAll(old(alerts.rows), activeAlerts[..i], now, faults)
      {
        var id := activeAlerts[i].id;
        var resolveErr := alerts.ResolveAlert(id, now, FaultOf(faults, id));
        assert activeAlerts[..i + 1][..i] == activeAlerts[..i];
      }
      assert activeAlerts[..|activeAlerts|] == activeAlerts;
    }

    /** `CheckAlertRules`, given what reading the rules returned. */
    method CheckAlertRules(rules: Result<seq<AlertRule>>, now: Time, b: Backend) returns (err: Option<Error>)
      requires alerts.Valid()
      modifies alerts
      ensures alerts.Valid()
      ensures var o := CheckCycle(old(alerts.rows), old(alerts.nextId), rules, now, b);
        alerts.rows == o.rows && alerts.nextId == o.nextId && err == o.err
    {
      if rules.Err? {
        return Some(Wrapped("failed to get alert rules", rules.error));
      }
      var list := rules.value;
      for i := 0 to |list|
        invariant alerts.Valid()
        invariant var o := EvaluateAll(old(alerts.rows), old(alerts.nextId), list[..i], now, b);
          alerts.rows == o.rows && alerts.nextId == o.nextId
      {
        assert list[..i + 1][..i] == list[..i];
        if list[i].enabled {
          var ruleErr := EvaluateRule(list[i], now, b);
        }
      }
      assert list[..|list|] == list;
      EvaluateAllSucceeds(old(alerts.rows), old(alerts.nextId), list, now, b);
      return None;
    }
  }
}
