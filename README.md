# gcs2postgresql, modelled in Dafny

gcs2postgresql is a Node daemon. It periodically downloads JSON files from a
Google Cloud Storage bucket and loads them into PostgreSQL tables. Each entry
of `config.gcFiles` has its own cron schedule. The callback is written to log
that it is fetching the object, buffer the download stream, parse the JSON
array and build a pg-promise multi-row insert into the table named after the
object. When rows were found and the entry is not in append mode, it wraps the
insert in a transaction that first deletes every row of that table. Every step
logs through a four-level gate. As written, though, every firing stops at
line 49 before fetching anything (see "## Findings"); the model covers both
that behaviour and the pipeline the callback is written to run.

This project models the deterministic parts of `gcs2postgresql.js`:

- `LogGate` (log_gate.dfy) models the `LOG_LEVELS` table and the test
  `LOG_LEVELS[config.logLevel] <= LOG_LEVELS.x`. Any other configured name
  makes every comparison false, so it enables nothing.
- `ObjectName` (object_name.dfy) models JavaScript's `split` on one character
  and the table name `name.split('.')[0]`.
- `StreamCollector` (stream_collector.dfy) models `downloadJSON`. The class
  `Collector` holds the `chunks` array and the promise's state, with one
  method per stream event. The functions `Settle` and `Chunks` give its state
  after any sequence of events.
- `LoadPlanner` (load_planner.dfy) models the choice between replace and
  append, the query text, and the lines logged while the query is planned.
- `Firing` (firing.dfy) models one firing of the cron callback built from these
  stages. The download outcome, `JSON.parse`, `helpers.insert` and `db.none`
  are parameters of the model. `FireAsWritten` is the firing as the code
  runs it (it throws at line 49). `Fire` is the firing as evidently
  intended: it leaves out the reload and uses the corrected `Finally`. So at
  level `info` a failed statement logs "Transaction completed." in the code
  but not in `Fire`.

Some behaviour of the code differs from what its comments and configuration suggest. The model follows the code:

- The `ColumnSet` is rebuilt on every firing (line 63). The comment on lines 61-62 speaks of creating it once, but nothing caches it.
- An empty row array does not skip the insert generator. If the generator
  returns a statement for it, that statement is sent unchanged, with no
  delete. If it throws, the firing fails and nothing is sent.
- The "No JSON objects found." warning is also written in append mode when
  rows were found.
- Nothing stops two firings of the same object from overlapping.

## Model

| member | source | states |
|---|---|---|
| LogGate.Lookup | gcs2postgresql.js:17-22 | the gate sees a rank exactly for the four level names, and there it is that level's rank; any other name makes every comparison false |
| LogGate.EnabledLevels | gcs2postgresql.js:17-22 | a name that is not a level writes no level; a level's name writes exactly the levels ranked at least as high as it |
| LogGate.EnabledIff | gcs2postgresql.js:17-22 | a message of level L is written iff the configured name is a level whose rank is at most L's rank |
| LogGate.UnknownLevelSilences | gcs2postgresql.js:17-22 | a configured name that is not one of the four levels makes every gate test false (lines 50, 69, 73, 76, 81, 83, 84, 91), so it suppresses every message |
| LogGate.EnabledMonotone | gcs2postgresql.js:17-22 | if a message of some level is written, every message of a higher-ranked level is written too |
| LogGate.RaisingLevelOnlySuppresses | gcs2postgresql.js:17-22 | raising the configured level never enables a message that was suppressed |
| LogGate.GateTable | gcs2postgresql.js:17-22 | debug writes all four levels, info writes three, warnings writes two, errors writes only errors |
| LogGate.LookupRoundTrip | gcs2postgresql.js:18-21 | each level's name looks up its own rank, and no two levels share a rank |
| ObjectName.Split | gcs2postgresql.js:63 | `split('.')` yields at least one part, no part contains the separator, and the first part is the longest separator-free prefix |
| ObjectName.JoinSplit | gcs2postgresql.js:63 | joining the parts of a split restores the original name |
| ObjectName.SplitJoin | gcs2postgresql.js:63 | splitting the join of separator-free parts gives back exactly those parts |
| ObjectName.TableName | gcs2postgresql.js:63 | the table name contains no `.`, is a prefix of the object name, and ends at the first `.` or at the end of the name |
| ObjectName.TableNameUnique | gcs2postgresql.js:63 | any string with those three properties is the table name |
| ObjectName.TableNameWithoutDot | gcs2postgresql.js:63 | a name with no `.` is its own table name |
| ObjectName.TableNameIdempotent | gcs2postgresql.js:63 | deriving a table name from a table name changes nothing |
| ObjectName.TableNameExamples | gcs2postgresql.js:63 | `users.json` gives `users`, `a.b.json` gives `a`, `users` gives `users`, `.json` gives the empty name |
| StreamCollector.ConcatAppend | gcs2postgresql.js:40 | concatenating the chunks distributes over appending chunk lists |
| StreamCollector.ConcatLength | gcs2postgresql.js:40 | the payload is exactly as long as all chunks together |
| StreamCollector.ConcatPlacesChunk | gcs2postgresql.js:38-40 | each chunk appears unchanged in the payload, right after the chunks received before it |
| StreamCollector.DataKeepsPending | gcs2postgresql.js:38 | data events alone leave the promise pending |
| StreamCollector.SettledIsFinal | gcs2postgresql.js:37-40 | once the promise has resolved or rejected, later events do not change the outcome |
| StreamCollector.FirstSettlingEventDecides | gcs2postgresql.js:37-40 | after data chunks, `end` resolves with their in-order concatenation and `error` rejects with no payload, whatever follows |
| StreamCollector.PendingIffOnlyData | gcs2postgresql.js:39-40 | the promise is pending exactly when neither `end` nor `error` has arrived |
| StreamCollector.Collector.constructor | gcs2postgresql.js:36-37 | a new collector has no chunks and a pending promise |
| StreamCollector.Collector.OnData | gcs2postgresql.js:38 | the chunk is appended to `chunks` and the outcome does not change, even after settlement |
| StreamCollector.Collector.OnError | gcs2postgresql.js:39 | a pending promise becomes rejected; a settled one and the chunks stay as they were |
| StreamCollector.Collector.OnEnd | gcs2postgresql.js:40 | a pending promise resolves with the concatenation of the chunks so far; a settled one stays as it was |
| StreamCollector.CollectTwoChunks | gcs2postgresql.js:35-42 | chunks `[1,2]` and `[3]`, then `end`, then a late `error`: the result is `[1,2,3]` |
| LoadPlanner.ColumnSetFor | gcs2postgresql.js:63 | the column set keeps the configured columns, and its table is a `.`-free prefix of the object name that ends at the first `.` or at the end of the name, which with TableNameUnique is `split('.')[0]` |
| LoadPlanner.UnwrapReplaceQuery | gcs2postgresql.js:72 | the replace query is the delete header for the table, then the insert text, then the commit, in that order, and it reads back to that insert text |
| LoadPlanner.ReplaceQueryOfUnwrap | gcs2postgresql.js:72 | any text that reads back as a replace transaction is the template wrapped around what was read |
| LoadPlanner.LoadQueryBranches | gcs2postgresql.js:65-72 | with rows and append mode off, the query wraps the insert in the delete transaction; otherwise it is the insert unchanged |
| LoadPlanner.DeletesFirstIffReplace | gcs2postgresql.js:68-72 | for an insert statement, the query starts with a delete iff rows were found and append mode is off |
| LoadPlanner.NoObjectsWarningIff | gcs2postgresql.js:73-75 | "No JSON objects found." is written iff the rows are empty or append mode is on, and warnings are enabled |
| LoadPlanner.ClearingLineIff | gcs2postgresql.js:68-71 | the "clearing table" line is written iff rows were found, append mode is off and debug is enabled |
| LoadPlanner.PlanLogsAreGated | gcs2postgresql.js:69-78 | every line the planner writes passed its gate, and the logged query is the query returned |
| LogGate.LevelName | gcs2postgresql.js:18-21 | the keys of `LOG_LEVELS`; LookupRoundTrip and GateTable state that each key looks up its own rank |
| LogGate.Rank | gcs2postgresql.js:18-21 | the values of `LOG_LEVELS` (debug 0, info 1, warnings 2, errors 3); LookupRoundTrip states that the four ranks are distinct |
| LogGate.AtMost | gcs2postgresql.js:50 | JavaScript's `<=` when the left side may compare as NaN: false for NaN, the integer comparison otherwise; EnabledIff characterises the gate built on it |
| LoadPlanner.ReplacesTable | gcs2postgresql.js:68 | the condition `jsonData.length > 0 && !gcFile.appendData`; LoadQueryBranches and DeletesFirstIffReplace state which query text each outcome gives |
| LogGate.Enabled | gcs2postgresql.js:50 | the test `LOG_LEVELS[config.logLevel] <= LOG_LEVELS.x` (also lines 69, 73, 76, 81, 83, 84, 91); characterised by EnabledIff, EnabledMonotone and UnknownLevelSilences |
| LogGate.Log | gcs2postgresql.js:50-52 | one gated console call: its line or nothing; FireLogsAreGated and PlanLogsAreGated state that every written line passed its gate |
| ObjectName.Join | gcs2postgresql.js:63 | the inverse of `split`, used as its partner: JoinSplit and SplitJoin state the two round trips |
| StreamCollector.Concat | gcs2postgresql.js:40 | `Buffer.concat(chunks)`; ConcatAppend, ConcatLength and ConcatPlacesChunk state that it keeps every chunk, in order |
| StreamCollector.Chunks | gcs2postgresql.js:36-38 | the chunks the `data` handler pushes, in arrival order, also after settlement; Collector.OnData keeps the `chunks` field equal to it |
| StreamCollector.Settle | gcs2postgresql.js:37-40 | the promise's state after a sequence of events; FirstSettlingEventDecides, SettledIsFinal and PendingIffOnlyData characterise it |
| LoadPlanner.ReplaceQuery | gcs2postgresql.js:72 | the replace template; UnwrapReplaceQuery and ReplaceQueryOfUnwrap state that it is exactly header, insert, commit |
| LoadPlanner.LoadQuery | gcs2postgresql.js:65-72 | the query text a firing executes; LoadQueryBranches and DeletesFirstIffReplace state which branch gives which text |
| LoadPlanner.PlanLoad | gcs2postgresql.js:68-78 | the query plus the planner's log lines; NoObjectsWarningIff, ClearingLineIff and PlanLogsAreGated state which lines appear |
| Firing.Caught | gcs2postgresql.js:81-83 | the two `.catch` handlers: the failure is logged at errors level when enabled, and is otherwise swallowed |
| Firing.FinallyAsWritten | gcs2postgresql.js:84-89 | the `.finally` handler as written: completion is logged whenever info is enabled, failed or not (FinallyAsWrittenReportsFailureAsCompleted) |
| Firing.Finally | gcs2postgresql.js:84-89 | the `.finally` handler as its `e === undefined` test intends: completion only after success (CompletionIffSuccess) |
| Firing.Load | gcs2postgresql.js:65-89 | planning, executing and the catch routing once the insert text exists, with the corrected `Finally` in place of the handler as written; its query is the one FireReplaceQuery names |
| Firing.FireAsWritten | gcs2postgresql.js:47-93 | the firing as written: line 49 throws, and lines 90-93 log the TypeError (ReloadAbortsEveryFiring) |
| Firing.Fire | gcs2postgresql.js:50-89 | the firing as intended, without the reload and with the corrected `Finally`; FireExecutesPlannedQuery, FireLogsAreGated and CompletionIffSuccess characterise it |
| Firing.FireExecutesPlannedQuery | gcs2postgresql.js:56-80 | a query reaches the database iff download, parse and insert generation succeeded; in the replace branch it deletes from the column set's table and wraps exactly the generated insert |
| Firing.FireReplaceQuery | gcs2postgresql.js:63-80 | when the stages succeed, the database receives the load query for the table derived from the object name |
| Firing.FireLogsAreGated | gcs2postgresql.js:50-89 | every line a firing writes passed its gate, and an unknown configured level writes nothing |
| Firing.CompletionIffSuccess | gcs2postgresql.js:84-89 | in the corrected handler, "Transaction completed." is written iff info is enabled and every stage, the statement included, succeeded |
| Firing.FinallyAsWrittenReportsFailureAsCompleted | gcs2postgresql.js:84-89 | as written, a failed run at level info still writes "Transaction completed." |
| Firing.ReloadAbortsEveryFiring | gcs2postgresql.js:49 | as written, a firing sends nothing to the database and writes only the gated TypeError, even when the corrected firing would run a query |
| Firing.UsersReplaceScenario | gcs2postgresql.js:63-72 | for `users.json` with two rows and append mode off, the database receives `begin;\ndelete from users;\n<insert>;\ncommit;` |
| Firing.UsersAppendScenario | gcs2postgresql.js:65-75 | for the same object in append mode, the insert is sent alone, and the warning is written iff warnings are enabled |

## Left out

- Google Cloud Storage is not modelled: client construction, `createReadStream` (line 54) and a synchronous throw from it. The collector starts from a sequence of stream events, and a firing starts from the promise's settled state.
- `node-cron` scheduling (lines 45-46) and overlap between firings are not modelled. Each firing is modelled as one call. The code has no per-object guard, and the model adds none.
- pg-promise's `ColumnSet` formatting and `helpers.insert` (lines 63, 65) are represented by a function parameter that returns either the insert text or the error it throws. pg-promise's `helpers.insert` throws "Cannot generate an INSERT from an empty array." for an empty array. Line 83 then catches it, so with that library an empty array sends nothing and never reaches the warning on line 74. The model does not fix the parameter to this behaviour; it covers both outcomes.
- `db.none` (line 80) and the database's transaction and rollback semantics are represented by a parameter giving the failure, if any. The model covers only the text sent.
- `JSON.parse` and the UTF-8 decoding of the buffer (lines 40, 57) are represented by one parameter from bytes to rows. A JSON value that is not an array, where `length` means something else or is `undefined`, is not modelled.
- The configuration reload (line 49) is modelled only as it behaves, by throwing. Even without the `const`, `require` would return its cached object, so a reload would see no change. The corrected firing takes the configured level as a parameter.
- Date prefixes and the choice of console stream (`log`, `warn`, `error`) are not modelled. A log line records only its gate level and message.
- The `tasks/` scripts are not modelled. They only install and uninstall the Windows service.

## Findings

| source | as written | input that shows it | evidently intended | confidence | as-written member | corrected member |
|---|---|---|---|---|---|---|
| gcs2postgresql.js:49 | assigns to `config`, declared `const` on line 12, so every firing throws a TypeError before it fetches anything; lines 90-93 log it | any firing | re-read the configuration, then fetch and load | high, not executed | Firing.ReloadAbortsEveryFiring (about Firing.FireAsWritten) | Firing.FireExecutesPlannedQuery (about Firing.Fire) |
| gcs2postgresql.js:84-89 | the `.finally` handler tests `e === undefined`, but a finally handler gets no argument, so "Transaction completed." is written after failures too | level `info`, `db.none` rejects | write the completion line only after success | medium, not executed | Firing.FinallyAsWrittenReportsFailureAsCompleted (about Firing.FinallyAsWritten) | Firing.CompletionIffSuccess (about Firing.Finally) |
