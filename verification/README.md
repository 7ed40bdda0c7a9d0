# Heartbeat database writer — a Dafny model

The repository holds four variants of a small Flask service. Each one runs a
background thread that writes the current timestamp to a database at a fixed
interval. The thread counts every attempt in Prometheus metrics as a success,
a failure or a timeout, and times every attempt. This project models the
writer logic of all four variants:

- **multidb-without-tracing/app.py** reads a list of logical databases from
  `DATABASE_NAMES` and per-target variables, and refuses to start when the
  configuration is incomplete. It registers zero counters for every target at
  start-up. Each round writes to every target in configuration order, labels
  each metric with the target name, and then sleeps.
- **initial/app1.py** keeps one global SQLAlchemy engine. `init_db_engine`
  tries to connect at most five times and keeps a status gauge. The write
  loop re-initialises the engine after any failed write. `/health` answers
  from the engine slot.
- **without-tracing/app.py** and **with-tracing/app.py** write to SQLite.
  `DB_NAME` chooses the database. Failures can be simulated on every tenth
  second. The traced variant also wraps each write in an OpenTelemetry span.

The driver, the clock and the network are not modelled. Their answers are
parameters instead:

- a `DriverResult` says how one connect/insert/commit ended;
- initial/app1.py reads two infinite streams of `EngineCall`s, one for
  connection tests and one for writes;
- the current second is part of each writer tick.

Latencies are opaque numbers, and a histogram is its observation count.

Modules:

- `Results`: `Option` and `Result`.
- `Text`: the ASCII subset of Python's `strip`, `split`, `upper`, `lower`,
  `in` and `int()` that the variants use.
- `Env`: environment lookups, the write interval and the simulation switch.
- `Metrics`: counters, histograms and the event log.
- `Classify`: the three outcome classifiers.
- `MultiDbConfig` and `MultiDbWriter`: the multi-target variant.
- `EngineRetry`: initial/app1.py.
- `SqliteWriter`: both SQLite variants.

## Model

| member | source | states |
|---|---|---|
| Text.ParseInt | multidb-without-tracing/app.py:72 | text that is all whitespace, or that starts or ends with one of the separators 0x1C-0x1F that `int()` does not skip, is no integer |
| Text.SeparatorIsNoIntSpace | without-tracing/app.py:32 | "\x1C7" and "7\x1F" are rejected, although stripping would remove the separator |
| Env.WriteInterval | multidb-without-tracing/app.py:70-75 | the interval is exactly the integer `DB_WRITE_INTERVAL_SECONDS` parses to when it parses; an unset or non-integer variable gives the default of 5 seconds instead of a failure |
| Env.IntervalRoundTrip | without-tracing/app.py:31-35 | setting the variable to the decimal spelling of any integer n gives an interval of n, negative n included |
| Env.SimulateFlag | multidb-without-tracing/app.py:165 | the switch is on exactly when `SIMULATE_DB_FAILURE` is set and lower-cases to "true"; the "false" default never turns it on, and an on switch is a four-letter value |
| Env.SimulateFlagCaseInsensitive | without-tracing/app.py:131 | the simulation switch ignores letter case; "true" and "TRUE" turn it on, and an unset variable leaves it off |
| Classify.MultiDbOutcome | multidb-without-tracing/app.py:176-185 | success exactly when the write completed; a timeout failure exactly when it raised an OperationalError; any other exception is a plain failure |
| Classify.EngineOutcome | initial/app1.py:72-98 | success exactly for a completed call; a timeout exactly for a driver error whose lower-cased text has "timed out" or "connection refused"; an unexpected error is never a timeout |
| Classify.SqliteOutcome | without-tracing/app.py:144-152 | every exception is a failure; it is also a timeout exactly when its lower-cased text has "timeout" or "operationalerror", whatever its type |
| Classify.TextRulesIgnoreCase | initial/app1.py:74 | both text rules give the same verdict for a message and its upper-cased form |
| Classify.SimulatedMessageIsTimeout | without-tracing/app.py:133-148 | the simulated OperationalError's message is classified as a timeout by the text rule |
| Classify.TextRulesDisagree | initial/app1.py:123 | "connection refused" is a timeout for initial/app1.py's driver errors and a plain failure under the SQLite variants' rule |
| Metrics.Record | without-tracing/app.py:126-152 | one attempt adds one latency observation; success rises by one exactly for a success, failure by one exactly for a failure, timeout by one exactly for a timeout failure; soundness (success+failure = observations, timeout ≤ failure) is kept |
| Metrics.Observe | initial/app1.py:67-69 | one attempt raises by one exactly the counter of its (status, is_timeout) label pair and no other, adds one histogram observation, sets the latency gauge of its status and leaves the other status's gauge as it was, neither changing nor creating it |
| Metrics.LabelsInjective | initial/app1.py:75-77 | distinct outcomes are counted under distinct (status, is_timeout) label pairs |
| Text.Strip | multidb-without-tracing/app.py:34 | stripping gives the slice of the input between leading and trailing whitespace; the result neither starts nor ends in whitespace, and it is empty exactly when the input is all whitespace |
| MultiDbConfig.ParseNames | multidb-without-tracing/app.py:34 | every name parsed from `DATABASE_NAMES` is non-empty, has no surrounding whitespace and contains no comma |
| MultiDbConfig.ParseNamesEmpty | multidb-without-tracing/app.py:34-37 | the list of names is empty exactly when the variable contains only blanks and commas |
| MultiDbConfig.ParseNamesJoin | multidb-without-tracing/app.py:34 | a non-empty list of clean names joined with commas parses back to the same list, in the same order |
| MultiDbConfig.ParseNamesOfJoin | multidb-without-tracing/app.py:34 | for any comma-free pieces, joining them with commas and parsing gives the pieces stripped, with the blank ones dropped, in order |
| MultiDbConfig.TargetFor | multidb-without-tracing/app.py:40-63 | a target exists exactly when `<NAME>_DB_HOST` and `<NAME>_DB_PASSWORD` are set and non-empty; then port, user and dbname come from their variables or default to 5432, k8sadmin and timestamp |
| MultiDbConfig.BuildTargets | multidb-without-tracing/app.py:39-65 | an accepted list has one target per name, and every rejection is a missing-required-variable error; the per-name contents are stated by MultiDbConfig.BuildTargetsSpec |
| MultiDbConfig.BuildTargetsSpec | multidb-without-tracing/app.py:39-65 | the configuration is accepted exactly when every name has host and password; it then lists one target per name, in order; otherwise the error names the first name missing one |
| MultiDbConfig.LoadTargets | multidb-without-tracing/app.py:28-68 | an unset or empty variable gives the "not set" error; a variable of only blanks and commas gives the "empty" error, and only that variable does; an accepted configuration has at least one target |
| MultiDbConfig.LoadTargetsOk | multidb-without-tracing/app.py:39-64 | an accepted configuration describes every parsed name in order, and every target has a non-empty host and password |
| MultiDbConfig.LoadTargetsMissing | multidb-without-tracing/app.py:55-63 | for a variable naming at least one database, start-up fails exactly when some name lacks host or password, and the error names the first such name |
| MultiDbConfig.LoadSettings | multidb-without-tracing/app.py:28-75 | start-up fails exactly when the target list fails, with the same error; otherwise the settings hold that list, the interval of `DB_WRITE_INTERVAL_SECONDS` and the `SIMULATE_DB_FAILURE` switch |
| MultiDbWriter.WriteTimestamp | multidb-without-tracing/app.py:154-185 | one write adds one latency observation to its own label. Success rises only when the switch is off and the driver completed. Failure rises otherwise. Timeout rises for a simulated failure or an OperationalError |
| MultiDbWriter.WriteTimestampAt | multidb-without-tracing/app.py:159-185 | a write changes no label other than its target's own |
| MultiDbWriter.SimulatedAttempts | multidb-without-tracing/app.py:165-168 | with the switch on, every attempt of a round is a timeout failure and no success counter moves, whatever the driver would have done |
| MultiDbWriter.HealthyAttempts | multidb-without-tracing/app.py:170-176 | with the switch off and every driver call completing, each label gains one success per target carrying it and no failure or timeout |
| MultiDbWriter.Attempts | multidb-without-tracing/app.py:197-201 | a round logs exactly one event per target, the i-th naming target i with the outcome its driver result amounts to; the counters are stated by MultiDbWriter.AttemptsPerLabel |
| MultiDbWriter.AttemptsEvents | multidb-without-tracing/app.py:197-201 | a round attempts every target exactly once, in configuration order, each with its own outcome, even after earlier targets fail |
| MultiDbWriter.AttemptsPerLabel | multidb-without-tracing/app.py:197-201 | a round adds one observation per target carrying the label; no counter decreases and soundness is kept |
| MultiDbWriter.AttemptsLabels | multidb-without-tracing/app.py:197-201 | after a round, exactly the labels already present or carried by some target exist |
| MultiDbWriter.Round | multidb-without-tracing/app.py:196-202 | a pass logs exactly the attempts of the round, one per target in order, and then exactly one sleep of the configured interval |
| MultiDbWriter.StartupLabels | multidb-without-tracing/app.py:224-231 | before the first write, a label exists exactly when some configured target carries it |
| MultiDbWriter.StartupZero | multidb-without-tracing/app.py:227-231 | before the first write, every label reads zero |
| MultiDbWriter.RunLength | multidb-without-tracing/app.py:196-202 | n rounds over k targets log n·(k+1) events |
| MultiDbWriter.RunEvents | multidb-without-tracing/app.py:196-202 | the log of a run is, round after round, the attempts on every target in configuration order with the outcome each driver result amounts to, followed by one sleep of the interval |
| MultiDbWriter.RunPerLabel | multidb-without-tracing/app.py:196-202 | over many rounds each label gains one observation per round per target carrying it; no counter decreases |
| MultiDbWriter.RunFromStartup | multidb-without-tracing/app.py:222-235 | from start-up, each label after n rounds has exactly n·(number of targets with that name) attempts, success+failure equals that number, and timeout ≤ failure |
| MultiDbWriter.Run | multidb-without-tracing/app.py:196-202 | the repeated rounds; their length, per-label counts and start-up behaviour are stated by MultiDbWriter.RunLength, RunPerLabel and RunFromStartup |
| MultiDbWriter.RunSimulated | multidb-without-tracing/app.py:165-168 | with the switch on, over n rounds each label gains n failures and n timeouts per target carrying it, and no success |
| MultiDbWriter.Process | multidb-without-tracing/app.py:222-235 | the writer from start-up logs, for every round, one attempt per target in configuration order with its outcome and then one sleep of the interval, n·(k+1) events in all; the per-label counts are stated by MultiDbWriter.ProcessSpec |
| MultiDbWriter.ProcessSpec | multidb-without-tracing/app.py:222-235 | from the settings read at start-up, each label stays sound with one attempt per round per target carrying it; with the switch on every one of them is a timeout failure and none a success |
| EngineRetry.ConnectAttempt | initial/app1.py:57-79 | a connection test raises by one exactly the counter of the outcome the test's classification gives, adds one latency observation and changes no engine, gauge, sleep or write state |
| EngineRetry.InitLoop | initial/app1.py:56-98 | with attempts left the loop makes at least one and at most the remaining connection tests; it leaves the write metrics alone, only appends sleeps, and leaves the gauge as it was, 0 or 1 |
| EngineRetry.InitDbEngine | initial/app1.py:51-98 | one to five connection tests, writes untouched, sleeps only appended, the gauge ending at 0 or 1; the full outcome is stated by EngineRetry.InitDbEngineSpec |
| EngineRetry.InitDbEngineSpec | initial/app1.py:51-98 | between one and five connection tests, stopping at the first success. Fewer than five tests means the last succeeded. The gauge is 1 exactly when the last test succeeded, and the engine is then the one it created. The sleeps taken are exactly one 5 s sleep per failed test except a final driver error, and every test is counted once |
| EngineRetry.FinalDriverErrorClearsEngine | initial/app1.py:82-90 | five failures ending in a driver error empty the engine slot, set the gauge to 0 and take four sleeps |
| EngineRetry.FinalUnexpectedKeepsEngine | initial/app1.py:91-98 | five failures ending in an unexpected error keep the old engine, set the gauge to 0 and take five sleeps |
| EngineRetry.InitFrame | initial/app1.py:51-98 | initialisation always makes a connection test, never touches the write metrics, only extends the sleeps, and keeps the writer invariant |
| EngineRetry.WriteAttempt | initial/app1.py:110-140 | one write counted under exactly its classified outcome and observed once; connection tests follow exactly when it failed; the pass ends with a 2 s sleep |
| EngineRetry.WriteAttemptSpec | initial/app1.py:110-140 | a write with an engine present raises by one exactly the write counter of its classified outcome, is observed once and ends with a 2 s sleep; connection tests follow exactly when the write failed; a successful write keeps the engine |
| EngineRetry.WriteIteration | initial/app1.py:100-140 | a pass makes at most one write; a pass without a write leaves the write metrics alone, has no engine and ends with a 5 s sleep; a pass with one ends with a 2 s sleep |
| EngineRetry.WriteIterationSpec | initial/app1.py:100-140 | one loop pass keeps the invariant: metrics are sound, the gauge is 0 or 1, gauge 1 implies an engine, and an engine comes from a successful test. The write is skipped with a 5 s sleep exactly when no engine exists even after re-initialising; otherwise exactly one counted write happens and is followed by a 2 s sleep |
| EngineRetry.PassesSpec | initial/app1.py:102-140 | over n passes at most n writes are attempted, each counted and observed once, the invariant holds throughout and every pass sleeps |
| EngineRetry.ProcessSpec | initial/app1.py:171-176 | after start-up initialisation and n passes, the write counters and histogram each hold exactly the number of writes attempted, at most n |
| EngineRetry.Health | initial/app1.py:146-156 | /health answers 200 "healthy" exactly when an engine exists and `SELECT 1` succeeds. Without an engine it answers 500 "engine not initialized". A SQLAlchemy error gives 500 "failed: …". Any other exception escapes |
| EngineRetry.StaleEngineAfterUnexpectedErrors | initial/app1.py:91-98 | a concrete run in which the gauge reads 0 while the old engine stays in place and /health still answers 200 |
| SqliteWriter.DbName | without-tracing/app.py:20 | the database name is `DB_NAME`, or ":memory:" when it is unset |
| SqliteWriter.SpanDbSystem | with-tracing/app.py:151 | the span labels the system "sqlite" exactly for ":memory:" and for names ending in ".db", and "sql" otherwise; SqliteWriter.SelectAsWritten relates the label to the database actually opened |
| SqliteWriter.SelectAsWritten | without-tracing/app.py:67-100 | as written, the database opened is `DB_NAME` exactly when it does not end in ".db"; a ".db" name opens a fresh in-memory database; for every name but ":memory:", SQLite is opened exactly when the span labels the system "sql" |
| SqliteWriter.DataPathIsDiscarded | with-tracing/app.py:92-120 | as written, "/data/timestamps.db" reaches the placeholder branch and opens ":memory:", while its span claims SQLite |
| SqliteWriter.SelectIntended | without-tracing/app.py:16-20 | with the corrected selection, a ".db" path is the file opened, ":memory:" opens an in-memory database, and the span says "sqlite" exactly when SQLite is opened |
| SqliteWriter.LoadSettings | with-tracing/app.py:25-35 | the settings use `DB_NAME` or ":memory:" when it is unset, the database the selection as written opens (so a ".db" name is replaced by ":memory:"), the interval of `DB_WRITE_INTERVAL_SECONDS` and the `SIMULATE_DB_FAILURE` switch |
| SqliteWriter.SimulatedNow | without-tracing/app.py:131-132 | a failure is simulated exactly when the switch is on and the second is divisible by ten; SqliteWriter.SimulationGateSeconds turns this into the six seconds of each minute |
| SqliteWriter.SimulationGateSeconds | with-tracing/app.py:160-161 | with the switch on, the gate opens at exactly seconds 0, 10, 20, 30, 40 and 50 of each minute |
| SqliteWriter.AttemptOutcome | without-tracing/app.py:127-152 | success exactly when nothing was simulated and the driver completed; a timeout exactly when simulated or when the exception text matches the text rule |
| SqliteWriter.AttemptOutcomeIsTextRule | without-tracing/app.py:133-148 | the simulated path needs no special case: its outcome is the text rule applied to the simulated OperationalError |
| SqliteWriter.WriteTimestamp | without-tracing/app.py:121-152 | one write adds one observation. Success rises by one exactly on a real success, and failure by one exactly on any exception. Timeout rises by one exactly when the failure is simulated or its text matches. Soundness is kept |
| SqliteWriter.StartSpan | with-tracing/app.py:147-157 | a new span carries the database name and system label, has no status and no recorded exception, and no timeout mark |
| SqliteWriter.TracedWrite | with-tracing/app.py:140-186 | tracing changes no counter: the tally is that of the untraced write; the span is OK exactly on a real success and carries the database name and system label |
| SqliteWriter.TracedWriteSpec | with-tracing/app.py:158-186 | tracing changes no counter. The span is OK exactly on success and ERROR exactly on failure, with "Database write failed: " and the exception text as description. `db.timeout` is set exactly when the timeout counter rises, and the exception is recorded |
| SqliteWriter.TracedSimulated | with-tracing/app.py:160-164 | a simulated failure is a traced timeout whose exception is recorded on the span twice |
| SqliteWriter.Pass | without-tracing/app.py:159-161 | a pass appends one attempt against the opened database and one sleep of the interval, leaving the earlier log unchanged |
| SqliteWriter.PassConsistent | without-tracing/app.py:155-161 | a pass keeps the counters equal to those the event log implies, and keeps the log alternating between attempt and sleep |
| SqliteWriter.RunConsistent | without-tracing/app.py:155-161 | any number of passes keeps the counters equal to those the event log implies |
| SqliteWriter.RunCounts | with-tracing/app.py:190-197 | n passes add 2n events and n observations; counters never decrease and soundness is kept |
| SqliteWriter.ProcessSpec | without-tracing/app.py:155-161 | from zero counters, the writer's counters are always sound, equal those its log implies, and count one observation per pass |
| SqliteWriter.SimulatedRun | without-tracing/app.py:131-133 | with the switch on and every pass on a multiple of ten seconds, every pass is a timeout failure and no success is counted |
| SqliteWriter.TracedRunAgrees | with-tracing/app.py:190-197 | the traced loop ends with the untraced loop's counters, and its i-th span is ERROR exactly when the i-th attempt failed |

## Left out

- The Flask routes `/`, `/metrics` and `/stats` are not modelled. They return constant text or the metrics library's exposition.
- The threads and the daemon flag are not modelled. Each writer thread is modelled as a sequential loop, and nothing else writes to the metrics.
- `create_table` in the two SQLite variants and the multi-target variant is not modelled. It only runs SQL at start-up and prints or logs its own failure. initial/app1.py has no such function: it creates the table inside every write (initial/app1.py:113), and a failure there is part of how that write ends, which is an input here.
- SQL text, the drivers, SQLAlchemy and sqlite3 are not modelled. Each call is replaced by the value saying how it ended.
- SQLite's fresh database per ":memory:" connection is not modelled. Because of it, a real default configuration would fail every insert with "no such table", but the driver's behaviour is an input here.
- The time source is not modelled. The current second is an input, and latencies are opaque numbers, not floats of milliseconds or seconds.
- Histogram buckets are not modelled, only observation counts.
- Logging, `print` and the tracer provider set-up (`init_tracer`) are not modelled.
- Span kind and span name are not modelled. Only the attributes, the status, the recorded exceptions and `db.timeout` are.
- Env.WriteInterval: Python `int()` is modelled for ASCII digits, an optional sign, surrounding ASCII whitespace as `int()` skips it (tab to carriage return, and space) and single underscores between digits. Non-ASCII digits and whitespace, and the 4300-digit limit, are not modelled.
- Text.Strip, Text.Upper and Text.Lower cover ASCII whitespace and letters only, not Unicode.
- The interval's sign is not checked. A negative interval makes `time.sleep` raise and ends the writer thread; the model records the sleep as an event.
- initial/app1.py lines 20-27 are not modelled. They only build `DATABASE_URL` for the driver.
- The multidb `finally` block (multidb-without-tracing/app.py:186-188) is not modelled. It only closes a connection.
- The outer `try` of the multi-target loop (multidb-without-tracing/app.py:198-201) has no counterpart. `write_timestamp_to_db` catches every exception itself, so that handler never runs.
- The multi-target and SQLite writers read `SIMULATE_DB_FAILURE` on every write. The model reads it once into the start-up settings (MultiDbConfig.LoadSettings, SqliteWriter.LoadSettings), because the environment does not change while the process runs.
- MultiDbWriter.StartupZero: the source does not create the latency histogram at start-up. The model's `Touch` creates the whole series with zero observations, which reads the same.
- The OpenTelemetry status rule that an OK status cannot be overwritten is not modelled. No path of the traced write sets OK and then ERROR.

## Findings

| source | as written | input that shows it | evidently intended | confidence | as-written member | corrected member |
|---|---|---|---|---|---|---|
| without-tracing/app.py:72, with-tracing/app.py:94 | `get_db_connection` opens `DB_NAME` with SQLite when it is ":memory:" or does NOT end in ".db"; every ".db" name reaches the external-database placeholder, which opens a fresh ":memory:" database | `DB_NAME="/data/timestamps.db"`, the persistent path the comments at without-tracing/app.py:17-18 recommend, opens ":memory:" | a ".db" name opens that SQLite file, as those comments and the span's `db.system` label (with-tracing/app.py:151) assume | not executed | SqliteWriter.DataPathIsDiscarded | SqliteWriter.SelectIntended |
