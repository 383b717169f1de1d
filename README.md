# Log analytics pipeline: a verified Dafny model

This project models the sequential logic of the Log-Analytics-Go-Kafka service
and proves properties of it. The service is a Go system:

- a Kafka consumer batches decoded log records into a MySQL `logs` table;
- an HTTP API filters and pages those logs;
- an alert evaluator turns rule aggregates into `active`/`resolved` alerts;
- a migration tool splits `.sql` files and applies them in transactions;
- the configuration is read from environment variables.

Kafka, GORM, Gin and MySQL are not modelled. Whatever they answer (a decode
result, a query result, a database error, the clock) is a parameter of the
model, so each operation is deterministic.

| file | module | models |
|---|---|---|
| `common.dfy` | `Common` | `Option`, `Result`, wrapped errors (`fmt.Errorf` with `%w`), time as integer nanoseconds, and the standard-library pieces the core relies on: `strings.TrimSpace`, `strings.Split`/`Join`, `strings.ToUpper` for the letters whose upper case is ASCII (enough for the `USE ` test), `strconv.Atoi` (64-bit range), `strconv.Itoa`, `strconv.ParseBool` |
| `queries.dfy` | `Queries` | SQL `WHERE`, `ORDER BY`, `OFFSET`, `LIMIT` as filter, sort by a total preorder, skip, take; Go's string order |
| `models.dfy` | `Models` | `Log`, `LogFilter`, `AlertRule`, `Alert`, `AlertStatus`, `AlertFilter`, `AlertStats` (internal/models) |
| `log_table.dfy` | `LogStore` | the `logs` repository: `CreateLog` and `CreateLogBatch` on a `LogTable` class, and the `GetLogs` and `GetLogsByTraceID` reads |
| `alert_table.dfy` | `AlertStore` | the `alerts` repository: `CreateAlert`, `ResolveAlert` and `AcknowledgeAlert` on an `AlertTable` class, and the `GetAlerts`, `GetActiveAlerts` and `GetAlertStats` reads |
| `alert_engine.dfy` | `AlertEngine` | `CheckAlertRules`, `evaluateRule` and the window of `buildQuery`, as methods of `AlertService` over an `AlertTable`, specified by the functions `Evaluate`, `EvaluateAll` and `CheckCycle` |
| `log_handlers.dfy` | `LogHandlers` | the query-parameter to `LogFilter` mapping of the `GetLogs` handler, `HandleLogBatch`, `getUniqueServices` |
| `batch_assembler.dfy` | `LogProcessor` | `ConsumeClaim` and `processBatch` as the `ClaimConsumer` class, specified by a state machine `Next` over events `Msg(offset, record)`, `Tick` and `SessionDone` |
| `sql_split.dfy` | `SqlScript` | `splitSQLStatements` and the `USE` classification of `executeStatement` |
| `migration.dfy` | `Migrations` | `LoadMigrations`, `GetAppliedMigrations`, `ApplyMigration`, `RunMigrations`, `reconnectToDatabase` and `ShowStatus`, as methods of `MigrationRunner`, specified by the functions `Load`, `ApplyOutcome`, `Run` and `StatusReport` |
| `config.dfy` | `Config` | `getEnv`, `getEnvAsInt`, `getEnvAsBool`, `getEnvAsDuration`, `getEnvAsSlice` and `Load` over an environment `map<string, string>` |

The imperative parts of the source are methods on classes, each proved
against a function that specifies it:

- the consumer loop, which mutates its buffer and marks messages;
- the table updates;
- the rule loop and the resolve loop of the evaluator;
- the statement loop, the run loop and the status report of the migration tool;
- the splitter's loops, the filter construction in the handler, and the in-place trim loop of `getEnvAsSlice`.

The lemmas then state what the source promises about those functions.

### Where the code departs from an at-least-once consumer

- **The consumer marks before it writes.** Each message is marked as consumed
  as soon as it is read, before its batch is written. A batch whose write
  failed is dropped all the same. An at-least-once consumer would commit the
  position only after a successful write. `RunInvariant` proves that every
  flushed batch was marked first; `FailedFlushLosesRecords` shows that in any
  run every decoded record is stored, refused or still buffered, while all of
  their messages are marked, so a refused record is not delivered again.
- **The session-end write always fails.** When the session ends, `processBatch`
  is called with `session.Context()`, which is already cancelled at that point,
  so the final insert returns `context canceled` and the remaining records are
  lost (log_processor_service.go:194-201). The model's final write therefore
  always fails, whatever the database would have answered: `SessionEndFlushes`,
  `NoFaultStoresAllButFinal` and `ClaimConsumer.HandleSessionDone` state it.
- **Flush count.** With no timer tick, `N` records in batches of `B` give exactly
  `N / B` (rounded down) size-triggered writes (`OnlyFullBatches`). The count
  one might expect, `N / B` rounded up, holds only once the session ends and
  tries to write the remainder; that last write fails (`SessionEndFlushCount`).
- **Window column.** The alert window filters logs by `created_at`, the time
  the row was written, and not by the log's own `timestamp`. The window start
  is written with whole seconds.

## Model

| member | source | states |
|---|---|---|
| Common.TrimSpace | cmd/migration/main.go:213 | the result has no leading or trailing Unicode white space, is no longer than the input, and an already trimmed string is returned unchanged |
| Common.TrimSpaceSlice | cmd/migration/main.go:213 | the trimmed string is a contiguous slice of the input with only white space outside it |
| Common.TrimSpaceAvoids | internal/config/config.go:132-134 | trimming never introduces a character that was not in the string (used for `,` and `;`) |
| Common.Split | cmd/migration/main.go:222 | `strings.Split` on a one-character separator gives one more piece than there are separators, none containing the separator |
| Common.JoinSplit | cmd/migration/main.go:221-222 | joining the pieces of a split with the separator gives back the original string |
| Common.ToUpper | cmd/migration/main.go:243 | upper-casing keeps the length and maps every character on its own: `a`..`z` to `A`..`Z`, `ſ` to `S`, `ı` to `I`, every other character to itself |
| Common.Atoi | internal/handlers/log.go:69 | an accepted string has a sign or a digit first, its value is in the 64-bit range, and its sign agrees with the leading `-` |
| Common.AtoiItoa | internal/config/config.go:102 | every 64-bit integer written in decimal parses back to itself |
| Common.ParseBool | internal/config/config.go:111 | `strconv.ParseBool` gives true exactly for `1 t T TRUE true True`, false exactly for `0 f F FALSE false False`, and fails otherwise |
| Queries.Filter | internal/database/logs/logs.go:59-79 | `WHERE`: the result holds each satisfying row as many times as the table does, and nothing else |
| Queries.Sort | internal/database/logs/logs.go:80 | `ORDER BY` returns a permutation of its input |
| Queries.SortSorted | internal/database/logs/logs.go:80 | for a total preorder the sorted sequence is ordered by it |
| Queries.SliceSorted | internal/database/logs/logs.go:81-86 | offset and limit cut a contiguous slice, which keeps the order |
| Queries.StrLeTotalPreorder | cmd/migration/main.go:115-117 | Go's `<` on strings (bytewise lexicographic) gives a total preorder, so sorting by ID is well defined |
| LogStore.LogTable.CreateLog | internal/database/logs/logs.go:36-42 | on success the log is appended; on failure the table is unchanged and the error is wrapped as `failed to create log` |
| LogStore.LogTable.CreateLogBatch | internal/database/logs/logs.go:45-54 | an empty batch succeeds without touching the table; otherwise the whole batch is appended or, on failure, nothing is and the error is wrapped |
| LogStore.BatchInsertError | internal/database/logs/logs.go:46-53 | the insert fails exactly when the batch is non-empty and the database fails, with the `failed to create log batch` wrapping |
| LogStore.GetLogs | internal/database/logs/logs.go:57-92 | a database error comes back wrapped; otherwise every returned row is in the table and matches every filter that is set, the rows are newest first, the count is what offset and limit leave of the matching rows, and with no limit and no offset the result is exactly the matching rows |
| LogStore.MatchingPageMembers | internal/database/logs/logs.go:59-79 | the page holds only matching table rows, and all of them when limit and offset are not positive |
| LogStore.MatchingPageOrder | internal/database/logs/logs.go:80-86 | the page is in descending timestamp order and its length is what offset and limit leave |
| LogStore.PageProperties | internal/database/logs/logs.go:81-86 | limit and offset apply only when positive: the page length follows from them, its rows come from the input, and with both not positive the input is returned whole |
| LogStore.PageSorted | internal/database/logs/logs.go:80-86 | paginating a sorted sequence keeps it sorted |
| LogStore.GetLogsByTraceID | internal/database/logs/logs.go:168-179 | exactly the rows with that trace ID (with multiplicity), oldest first; a database error comes back wrapped |
| AlertStore.Inserted | internal/database/alerts/alerts.go:34-36 | a create appends one row carrying the next ID and leaves the existing rows as they were |
| AlertStore.ResolvedById | internal/database/alerts/alerts.go:130-137 | the row with that ID becomes `resolved` with `resolved_at` = now; every other row is unchanged |
| AlertStore.AcknowledgedById | internal/database/alerts/alerts.go:140-147 | the row with that ID becomes `acknowledged` with `acknowledged_at` = now, whatever its status was; every other row is unchanged |
| AlertStore.AlertTable.CreateAlert | internal/database/alerts/alerts.go:34-36 | on success the table is `Inserted` and the next ID advances; on failure nothing changes and the database error is returned unwrapped |
| AlertStore.AlertTable.ResolveAlert | internal/database/alerts/alerts.go:130-137 | on success the rows become `ResolvedById`; on failure they are unchanged |
| AlertStore.AlertTable.AcknowledgeAlert | internal/database/alerts/alerts.go:140-147 | on success the rows become `AcknowledgedById`; on failure they are unchanged |
| AlertStore.InsertedKeepsRows | internal/database/alerts/alerts.go:34-36 | creating adds exactly one row (as a multiset) and keeps IDs increasing and below the next ID |
| AlertStore.ResolveTouchesOnlyThatRow | internal/database/alerts/alerts.go:130-137 | resolving changes only the row with that ID, which becomes `resolved`, and keeps the ID order |
| AlertStore.ResolveTwice | internal/database/alerts/alerts.go:131-136 | resolving twice is resolving once at the later time: the status stays `resolved` and `resolved_at` is overwritten |
| AlertStore.AcknowledgeResolved | internal/database/alerts/alerts.go:140-147 | a resolved alert can be acknowledged, keeping its `resolved_at` |
| AlertStore.UpdatesKeepAtMostOneActive | internal/database/alerts/alerts.go:130-147 | resolving or acknowledging never creates a second active alert for a rule |
| AlertStore.AlertPageProperties | internal/database/alerts/alerts.go:58-64 | offset and limit (applied when given) keep the order, take rows only from the input, leave exactly `AlertPageLength` rows (what the offset leaves, cut to the limit), and return the input when neither is given |
| AlertStore.GetAlerts | internal/database/alerts/alerts.go:39-69 | a database error is returned as it is; otherwise every row matches every set filter (status, severity, rule, inclusive `created_at` range), rows are newest first, the count is exactly what offset and limit leave of the matching rows (`AlertPageLength`), and with no limit and offset exactly the matching rows come back |
| AlertStore.GetActiveAlerts | internal/database/alerts/alerts.go:123-127 | exactly the `active` rows, newest first |
| AlertStore.ActiveAlertsIsStatusQuery | internal/database/alerts/alerts.go:123-127 | `GetActiveAlerts` equals `GetAlerts` with only the status filter `active` |
| AlertStore.StatusCountsPartition | internal/database/alerts/alerts.go:91-103 | the active, resolved and acknowledged counts add up to the total |
| AlertStore.SeverityCountsBounded | internal/database/alerts/alerts.go:105-117 | the four severity counts together never exceed the total |
| AlertStore.GetAlertStats | internal/database/alerts/alerts.go:87-120 | total is the row count; active and resolved are each at most the total; acknowledged alerts are in the total only; the severity counts sum to at most the total |
| AlertEngine.WindowStart | internal/services/alert_service.go:148-155 | the window start is now minus `TimeWindow` minutes, truncated to whole seconds |
| AlertEngine.ResolveAllRows | internal/services/alert_service.go:133-139 | the resolve loop resolves exactly the listed alerts whose resolution did not fail; a failure does not stop the others |
| AlertEngine.MatchesActiveOfRule | internal/services/alert_service.go:93-96 | the evaluator's lookup filter matches exactly the alerts of that rule with status `active` |
| AlertEngine.EmptyLookupNoActive | internal/services/alert_service.go:93-102 | the lookup is empty if and only if the rule has no active alert |
| AlertEngine.LookupIsActiveOfRule | internal/services/alert_service.go:125-128 | every alert the lookup returns is an active alert of the rule, taken from the table |
| AlertEngine.ResolveOnlyFound | internal/services/alert_service.go:123-139 | resolving the looked-up alerts changes only active alerts of the rule, each to its resolved form |
| AlertEngine.ResolveAllFound | internal/services/alert_service.go:123-139 | when no resolution fails, no active alert of the rule remains |
| AlertEngine.LookupFound | internal/services/alert_service.go:93-96 | the lookup returns exactly the rule's active alerts |
| AlertEngine.ResolvingKeepsInvariants | internal/services/alert_service.go:123-139 | resolving a rule's active alerts keeps the ID order and at most one active alert per rule |
| AlertEngine.DecideBelow | internal/services/alert_service.go:123-139 | below the threshold: no error, no new alert, only the rule's active alerts change (to resolved), and none stays active when no resolution fails |
| AlertEngine.DecideAtOrAbove | internal/services/alert_service.go:91-122 | at or above the threshold (inclusive): with no active alert exactly one alert is created with the rule's ID and severity, the value and status `active`; a failed create is returned wrapped; with an active alert nothing changes |
| AlertEngine.DecideKeepsInvariants | internal/services/alert_service.go:90-140 | the decision after a successful query keeps at most one active alert per rule |
| AlertEngine.EvaluateKeepsInvariants | internal/services/alert_service.go:75-143 | one rule evaluation keeps at most one active alert per rule and increasing IDs |
| AlertEngine.EvaluateOutcomes | internal/services/alert_service.go:75-143 | every branch of `evaluateRule`: no rows changes nothing and is no error; a query or lookup error changes nothing and is returned wrapped; at or over the threshold with no active alert one active alert is created, or on a failed create nothing changes and the error is wrapped as `failed to create alert`; with an active alert nothing changes; below the threshold only the rule's active alerts are resolved |
| AlertEngine.EvaluateLeavesOthers | internal/services/alert_service.go:91-140 | alerts of other rules, and acknowledged or resolved alerts, are never touched |
| AlertEngine.AcknowledgedDoesNotBlock | internal/services/alert_service.go:93-114 | for any table whose alerts of the rule are all acknowledged or resolved, a value at or over the threshold creates exactly one new active alert and leaves every existing row as it was |
| AlertEngine.EvaluateAllSucceeds | internal/services/alert_service.go:61-71 | the rule loop always returns no error, whatever the rules do |
| AlertEngine.EvaluateAllKeepsInvariants | internal/services/alert_service.go:61-71 | the whole loop keeps at most one active alert per rule |
| AlertEngine.CheckCycleOutcome | internal/services/alert_service.go:54-72 | if the rule list cannot be read, the cycle returns the wrapped error and evaluates nothing; otherwise it returns nil; either way the invariants hold |
| AlertEngine.DisabledSkipped | internal/services/alert_service.go:61-64 | a disabled rule changes nothing |
| AlertEngine.EvaluateAllEnabled | internal/services/alert_service.go:61-69 | an enabled rule is evaluated on the table the earlier rules left, and its error is dropped |
| AlertEngine.FailureDoesNotStopCycle | internal/services/alert_service.go:61-69 | the rule after a failing one is still evaluated, on the table the failing one left |
| AlertEngine.AlertService.EvaluateRule | internal/services/alert_service.go:75-143 | the table and the returned error are those of `Evaluate`, and the table stays valid |
| AlertEngine.AlertService.Act | internal/services/alert_service.go:90-140 | the threshold decision on the table gives `Decide`'s table and error |
| AlertEngine.AlertService.ResolveEach | internal/services/alert_service.go:133-139 | the resolve loop leaves the table as `ResolveAll` says and does not touch the next ID |
| AlertEngine.AlertService.CheckAlertRules | internal/services/alert_service.go:54-72 | the table and error after a cycle are those of `CheckCycle` |
| LogProcessor.Stamp | internal/kafka/consumers/log_processor_service.go:165-170 | a zero `Timestamp` or `CreatedAt` becomes now; non-zero values and all other fields are kept |
| LogProcessor.DecodeFailureSkipped | internal/kafka/consumers/log_processor_service.go:157-162 | a message that fails to decode is marked and skipped: the buffer and the writes are unchanged |
| LogProcessor.FullBatchFlushed | internal/kafka/consumers/log_processor_service.go:172-182 | when the buffer reaches the batch size, the message is marked first, then exactly the buffered records in arrival order are written; the buffer is emptied even if the write failed, and the timer is re-armed |
| LogProcessor.TickFlushes | internal/kafka/consumers/log_processor_service.go:184-192 | on a tick a non-empty buffer is written and emptied whatever the result; an empty one causes no write; the timer is re-armed in both cases |
| LogProcessor.SessionEndFlushes | internal/kafka/consumers/log_processor_service.go:194-201 | at session end a non-empty buffer gets one final write, which fails with the wrapped `context canceled` error and stores nothing; an empty buffer gets none; nothing is marked and the handler returns |
| LogProcessor.MessagePreserves | internal/kafka/consumers/log_processor_service.go:156-182 | a message keeps the buffer below the batch size, appends its record to "written then buffered", and marks its offset |
| LogProcessor.FullBatchPreserves | internal/kafka/consumers/log_processor_service.go:176-182 | the full-buffer case of the above |
| LogProcessor.TickOrEndPreserves | internal/kafka/consumers/log_processor_service.go:184-201 | a tick or session end moves records from the buffer to the writes without losing, duplicating or reordering any, and marks nothing |
| LogProcessor.NextPreserves | internal/kafka/consumers/log_processor_service.go:154-202 | every turn of the `select` keeps the invariant and extends marks and received records by exactly what arrived |
| LogProcessor.RunInvariant | internal/kafka/consumers/log_processor_service.go:149-204 | after any sequence of events, the writes concatenated and followed by the buffer equal the decoded records in arrival order (none written twice); the buffer stays below the batch size; every written record was marked first; the marks are the offsets read, in order |
| LogProcessor.NoFaultStoresAllButFinal | internal/kafka/consumers/log_processor_service.go:149-204 | when the database never fails, every write during the session is stored; after session end the stored records followed by the refused final batch are all decoded records in order, the refused part being shorter than the batch size |
| LogProcessor.FailedFlushLosesRecords | internal/kafka/consumers/log_processor_service.go:149-204 | in any run, whatever the database answers, the decoded records are exactly the stored ones, the refused ones and the buffered ones (as multisets and by count), while the marks are all offsets read: a refused record is marked and lost |
| LogProcessor.FlushedSplits | internal/kafka/consumers/log_processor_service.go:224-227 | every record handed to the database is either stored or refused, never both |
| LogProcessor.DecodedStep | internal/kafka/consumers/log_processor_service.go:172-182 | a decoded record either grows the buffer by one or completes one write of exactly the batch size |
| LogProcessor.OnlyFullBatchesCount | internal/kafka/consumers/log_processor_service.go:176-182 | with only decoded messages, records = batch size × writes + buffered, every write full |
| LogProcessor.OnlyFullBatches | internal/kafka/consumers/log_processor_service.go:176-182 | with no tick, `N` records in batches of `B` give exactly `N / B` (rounded down) writes of exactly `B` records, `N % B` left buffered |
| LogProcessor.SessionEndFlushCount | internal/kafka/consumers/log_processor_service.go:176-201 | followed by session end, `N` records take `N / B` rounded up writes in total, covering all records in arrival order; the last `N % B` records go to a final write that fails, so the stored records are those of the full-size writes only |
| LogProcessor.ClaimConsumer.ProcessBatch | internal/kafka/consumers/log_processor_service.go:224-227 | a write goes through `HandleLogBatch`; it is recorded with its result, and the table gains the batch exactly when the write succeeds |
| LogProcessor.ClaimConsumer.HandleMessage | internal/kafka/consumers/log_processor_service.go:156-182 | the message branch updates the consumer exactly as `Next` does and keeps the table in step with the successful writes |
| LogProcessor.ClaimConsumer.HandleTick | internal/kafka/consumers/log_processor_service.go:184-192 | the timer branch updates the consumer exactly as `Next` does |
| LogProcessor.ClaimConsumer.HandleSessionDone | internal/kafka/consumers/log_processor_service.go:194-201 | the session-end branch updates the consumer exactly as `Next` does, writing on the cancelled context, so the table is left unchanged |
| LogProcessor.ClaimConsumer.Handle | internal/kafka/consumers/log_processor_service.go:154-202 | one turn of the loop is `Next`; nothing happens after the handler returned |
| LogProcessor.ClaimConsumer.Consume | internal/kafka/consumers/log_processor_service.go:149-204 | the loop over a sequence of events ends in `Run` of those events, with the table holding the successful writes |
| LogHandlers.TextFilter | internal/handlers/log.go:35-66 | a non-empty `level`/`service`/`trace_id`/`user_id`/`search` parameter sets exactly its filter field to its value; an empty or missing one leaves it unset |
| LogHandlers.TimeBound | internal/handlers/log.go:52-62 | `start_time`/`end_time` becomes a bound exactly when it is present and parses as an RFC 3339 timestamp; otherwise it is ignored |
| LogHandlers.LimitParam | internal/handlers/log.go:68-74 | a missing `limit` gives 100; a present one gives its value when it is a positive integer and 0 (no limit) otherwise |
| LogHandlers.OffsetParam | internal/handlers/log.go:76-80 | `offset` is its value when it parses as an integer ≥ 0, and 0 otherwise |
| LogHandlers.ParseLogFilter | internal/handlers/log.go:31-80 | the filter built field by field has every field as the functions above say |
| LogHandlers.ParseTimeBound | internal/handlers/log.go:52-62 | the time `if` block computes `TimeBound` |
| LogHandlers.ParseLimit | internal/handlers/log.go:68-74 | the limit `if` block computes `LimitParam` |
| LogHandlers.ParseOffset | internal/handlers/log.go:76-80 | the offset `if` block computes `OffsetParam` |
| LogHandlers.NoParametersDefaultFilter | internal/handlers/log.go:33-80 | a request with no parameters gives the empty filter with limit 100 |
| LogHandlers.HandleLogBatch | internal/handlers/log.go:214-228 | the repository's error is returned unchanged and nil on success; the table gets the batch exactly on success |
| LogHandlers.GetUniqueServices | internal/handlers/log.go:231-242 | every service of the batch occurs exactly once in the result and nothing else does |
| SqlScript.CleanLines | cmd/migration/main.go:209-218 | kept lines are trimmed, non-empty and not `--` comments |
| SqlScript.NonEmptyStatements | cmd/migration/main.go:224-230 | kept statements are trimmed and non-empty |
| SqlScript.SplitSqlStatements | cmd/migration/main.go:207-233 | the splitter's loops compute `SplitSql` |
| SqlScript.StatementsShape | cmd/migration/main.go:220-232 | no statement is empty, every one is trimmed, and none contains `;` |
| SqlScript.CommentLineIgnored | cmd/migration/main.go:212-216 | a blank or `--` line contributes nothing |
| SqlScript.MultiLineStatement | cmd/migration/main.go:209-222 | the kept lines of a script without `;` are joined with single spaces into one statement |
| SqlScript.SplitNeverSkipped | cmd/migration/main.go:224-240 | no statement from the splitter is skipped as empty by `executeStatement` |
| SqlScript.UseAnyCase | cmd/migration/main.go:243 | `USE ` in any letter case, followed by a name, runs on the connection |
| SqlScript.UseWithTabInTransaction | cmd/migration/main.go:243-254 | `USE` in any letter case followed by a tab and any text is not recognised and runs inside the transaction |
| Migrations.IdBeforeFirstUnderscore | cmd/migration/main.go:93-99 | the ID is the text before the first `_` of the file name |
| Migrations.Collect | cmd/migration/main.go:86-112 | collecting succeeds exactly when every wanted file can be read |
| Migrations.CollectMembers | cmd/migration/main.go:86-112 | the collected migrations are exactly those of the non-directory `*.sql` files whose names contain `_` |
| Migrations.IdLeTotalPreorder | cmd/migration/main.go:115-117 | ordering by ID is a total preorder |
| Migrations.LoadedMigrations | cmd/migration/main.go:80-120 | loading fails exactly when the directory or a wanted file cannot be read; otherwise the result is sorted by ID, holds exactly the wanted files, and every ID is the part before the first `_` |
| Migrations.CollectStops | cmd/migration/main.go:102-105 | the first unreadable file ends the loading with its error |
| Migrations.LoadMigrations | cmd/migration/main.go:80-120 | the loop and sort compute `Load` |
| Migrations.ExecuteOneTrimmed | cmd/migration/main.go:158-162 | trimming before `executeStatement`, which trims again, changes nothing |
| Migrations.ExecuteAllSucceeds | cmd/migration/main.go:158-168 | the statement loop ends without error exactly when no statement that runs fails |
| Migrations.ExecuteAllEffects | cmd/migration/main.go:158-168 | on success the `USE` statements ran on the connection and all others in the transaction, in order |
| Migrations.ExecuteStops | cmd/migration/main.go:165-167 | the first failing statement ends the loop |
| Migrations.TransactionEffects | cmd/migration/main.go:144-204 | the transaction succeeds exactly when begin, every statement, the record (if any) and commit succeed; `000`/`001` add no tracking row, any other ID exactly `(id, filename, checksum)`; on failure nothing of the transaction stays |
| Migrations.ApplyEffects | cmd/migration/main.go:144-204 | the same for the statements the splitter finds in the migration |
| Migrations.EmptyRunSucceeds | cmd/migration/main.go:275-278 | an empty list applies nothing and succeeds |
| Migrations.BootstrapAlwaysApplied | cmd/migration/main.go:302-316 | an entry at index ≤ 1 with ID `000`/`001` is always applied |
| Migrations.OtherAppliedIffUntracked | cmd/migration/main.go:318-338 | any other entry is applied if and only if its ID is not in the applied set |
| Migrations.RunStops | cmd/migration/main.go:303-336 | the first failure aborts the run; no later migration is attempted |
| Migrations.FaultFreeRunAppliesUntracked | cmd/migration/main.go:266-343 | with no failures a run applies exactly the migrations not yet tracked, in order, and records one row for each |
| Migrations.StatusReport | cmd/migration/main.go:387-425 | a migration is APPLIED exactly when reconnecting succeeded and its ID is tracked, otherwise PENDING; a failed reconnect makes all PENDING; a loading or reading failure is an error |
| Migrations.StatusAfterFaultFreeRun | cmd/migration/main.go:387-425 | after a run with no failures every migration is reported APPLIED |
| Migrations.FaultFreeRunWithBootstrap | cmd/migration/main.go:266-343 | with no failures, a list starting with `000` and `001` applies both, ends on the database, then applies exactly the later migrations not yet tracked, in order, recording one row for each |
| Migrations.StatusAfterBootstrapRun | cmd/migration/main.go:266-425 | after such a run every later migration is reported APPLIED, and `000`/`001` are APPLIED exactly when they were tracked before (they never record a row) |
| Migrations.MigrationRunner.GetAppliedMigrations | cmd/migration/main.go:123-141 | the applied set is the set of tracked IDs, or the database's error |
| Migrations.MigrationRunner.ReconnectToDatabase | cmd/migration/main.go:346-384 | the error is the reconnect failure or none; the connection is open exactly when the reconnect succeeded (the old one is closed first, a failure leaves the closed one), and names the database after a success |
| Migrations.MigrationRunner.ExecuteStatement | cmd/migration/main.go:236-257 | an empty statement is a no-op; a `USE ` statement runs on the connection; every other statement is queued in the transaction; errors are wrapped |
| Migrations.MigrationRunner.ExecuteStatements | cmd/migration/main.go:157-168 | the statement loop computes `ExecuteAll` |
| Migrations.MigrationRunner.ApplyMigration | cmd/migration/main.go:144-204 | the database and error after `ApplyMigration` are those of `ApplyOutcome` |
| Migrations.MigrationRunner.RunMigrations | cmd/migration/main.go:266-343 | the database, the error and `appliedCount` after the run are those of `Run` on the loaded list, the count being the number of successful applications |
| Migrations.MigrationRunner.RunLoop | cmd/migration/main.go:298-339 | the `for` loop computes `RunFrom` |
| Migrations.MigrationRunner.RunOne | cmd/migration/main.go:300-338 | one pass of the loop computes `RunStep` |
| Migrations.MigrationRunner.RunBootstrap | cmd/migration/main.go:302-316 | the bootstrap branch applies the migration, counts it, and reconnects after `000` at index 0 |
| Migrations.MigrationRunner.RunIfPending | cmd/migration/main.go:318-338 | the other branch rereads the applied set when it is empty, and applies the migration only if its ID is not in it |
| Migrations.MigrationRunner.ShowStatus | cmd/migration/main.go:387-425 | the reported statuses and error are those of `StatusReport`; once loading succeeded the connection is open exactly when the reconnect succeeded: after a failed one the original, already closed handle is put back |
| Config.GetEnv | internal/config/config.go:93-98 | the value when it is non-empty, otherwise the default |
| Config.GetEnvAsInt | internal/config/config.go:100-107 | the parsed value when it is a 64-bit integer, otherwise (empty or unparseable) the default |
| Config.GetEnvAsBool | internal/config/config.go:109-116 | true for `strconv.ParseBool`'s true spellings, false for its false spellings, the default otherwise |
| Config.GetEnvAsDuration | internal/config/config.go:118-125 | the parsed duration when the parser accepts the value, otherwise the default |
| Config.EnvSlice | internal/config/config.go:127-138 | for a non-empty value one trimmed element per comma-separated piece (commas + 1, empty pieces kept, none containing a comma); the default for an empty value |
| Config.GetEnvAsSlice | internal/config/config.go:127-138 | the in-place trim loop over the split pieces computes `EnvSlice` |
| Config.EmptyLikeUnset | internal/config/config.go:93-138 | every getter reads an empty variable exactly as an unset one: as the default |
| Config.IntRoundTrip | internal/config/config.go:100-107 | a 64-bit integer written in decimal is read back as itself, whatever the default |
| Config.SliceRoundTrip | internal/config/config.go:127-138 | a list whose pieces carry no surrounding white space is returned piece by piece, and joining it with commas gives the value back |
| Config.Load | internal/config/config.go:57-91 | every field is read from its variable with its default from internal/constants, and an empty environment gives exactly the defaults |
| Config.EmptyEnvironmentDefaults | internal/config/config.go:57-91 | with no variables set, the defaults apply: auto-commit on, one broker `localhost:9092`, 25 open connections, a 5-minute connection lifetime |
| Config.AutoCommitUnlessFalse | internal/config/config.go:82 | `EnableAutoCommit` is true unless the variable is one of `ParseBool`'s false spellings |

## Left out

- Kafka and Sarama plumbing is not modelled: consumer-group setup, the rebalance strategy, topic probing, the `Start` re-consume loop, and the whole producer with its random sample logs. The `select` over channels and the timer becomes a sequence of events. Concurrency and partition assignment are not modelled.
- JSON decoding is modelled only as "decoded or not". `time.Parse` (RFC 3339), `time.ParseDuration`, the SHA-256 checksum, MySQL full-text search and the rule's SQL aggregate are parameters of the model.
- `time.Now()` is a parameter. The consumer takes one reading per event; the alert cycle takes one reading for the whole cycle.
- Logging is not modelled, and neither are the `%.2f` alert message text (a function passed in) or the `updated_at` column, which the `Alert` model has no field for.
- Database connections are not modelled. `gorm.go`, `NewMigrationRunner`, the DSN and pool settings of `reconnectToDatabase` are left out; a transaction is all-or-nothing, and the `USE` statements it ran stay.
- The alert-rule repository and handlers, the alert, health and metrics HTTP handlers, `GetLogStats` (floating-point averages) and the `cmd/*` mains are left out. The rule list is an input of the evaluation cycle.
- `StartAlertChecker`'s ticker is left out; one evaluation cycle is modelled.
- `godotenv.Load` (reading a `.env` file) is left out; the environment is a map given to `Config.Load`.
- Common.TrimSpace: white space is the Unicode set of `unicode.IsSpace` written out for the characters Dafny's `char` holds; no Unicode normalisation is modelled.
- Common.Atoi: the contract gives range and sign, not the exact decimal value; `AtoiItoa` pins the value down for every integer `Itoa` writes.
- LogStore.GetLogs: with a limit or an offset, the contract does not say which of the matching rows the page holds, beyond order and count, because the database's order among equal timestamps is unspecified (the model's sort is stable).
- AlertStore.GetAlerts: the same as `GetLogs`, for order among equal `created_at` values; a negative limit or offset is taken as "not given", as GORM treats it.
- Migrations.LoadMigrations: `sort.Slice` is not stable; the model sorts stably, which differs only when two files share an ID.
- SqlScript.SplitSqlStatements: a `;` inside a string literal and a `--` comment after code on a line are treated as the splitter treats them (split, kept), with no SQL lexing.
- Config.GetEnvAsDuration: `time.Duration` is an integer count of nanoseconds, and the parser is a parameter.
- Common.ToUpper: only the lower-case letters whose upper case is ASCII are mapped (`a`..`z`, `ſ`, `ı`); other letters such as `é` are left as they are, which changes nothing for the `USE ` test, its only use.
- LogStore.LogTable.CreateLog: the auto-increment `ID` and the `autoCreateTime` `CreatedAt` that GORM fills in (internal/models/log.go:20, 31) are not assigned; the row is stored as given.
- LogStore.LogTable.CreateLogBatch: the same as `CreateLog` for every row of the batch.
- LogStore.GetLogs: text filters compare strings exactly; MySQL's default collation compares them case-insensitively, which the model does not capture.
- LogStore.GetLogsByTraceID: the trace ID is compared exactly, not under the case-insensitive collation.
- AlertStore.GetAlerts: status, severity and the other filters compare exactly, not under the case-insensitive collation.
- AlertEngine.WindowStart: `time.Duration(TimeWindow) * time.Minute` is 64-bit and wraps for windows above about 153 722 867 minutes; the model computes it without wrap-around.
- AlertEngine.CheckCycle: the source reads the clock once per rule for the window (internal/services/alert_service.go:148), once per created alert (:108) and once per resolution (internal/database/alerts/alerts.go:131); the model uses one `now` for the whole cycle.
- AlertEngine.EvaluateAll: the same single `now` as `CheckCycle`.
- LogProcessor.Stamp: the source calls `time.Now()` separately for `Timestamp` and `CreatedAt`; the model uses one reading for both.
- Migrations.Run: one answer (`Faults.readApplied`) decides every read of the applied set in a run, the first one and each re-read made while the held set is empty (cmd/migration/main.go:292-295, 320-326); a run whose first read succeeds and a later re-read fails is not modelled.
- Migrations.MigrationRunner.RunMigrations: requires an open connection, as a freshly created runner holds; what the source does on a closed handle (a failed query) is not modelled.
