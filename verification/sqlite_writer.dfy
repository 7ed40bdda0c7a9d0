/** The two SQLite variants, without-tracing/app.py and with-tracing/app.py:
    the choice of database from DB_NAME, the failure-simulation gate, one
    timed write with its three counters, the OpenTelemetry span of the traced
    variant as a plain record, and the write loop. */
module SqliteWriter {
  import opened Results
  import opened Text
  import opened Env
  import opened Metrics
  import opened Classify

  const DbNameVar := "DB_NAME"
  const Memory := ":memory:"
  const FileSuffix := ".db"

  /** The configured database name, the in-memory placeholder when unset. */
  function DbName(env: Environment): (r: string)
    ensures DbNameVar !in env ==> r == Memory
    ensures DbNameVar in env ==> r == env[DbNameVar]
  {
    GetenvOr(env, DbNameVar, Memory)
  }

  lemma MemoryIsNotDbFile(s: string)
    requires s == Memory
    ensures !EndsWith(s, FileSuffix)
  {
    assert s[|s| - 3..] == "ry:";
  }

  // ---------------------------------------------------------------------------
  // Which database a connection opens
  // ---------------------------------------------------------------------------

  /** Where get_db_connection points sqlite3.connect: a SQLite database at a
      path (":memory:" being a fresh in-memory one), or the placeholder for an
      external server, which falls back to a fresh in-memory database. */
  datatype Backend = SqliteFile(path: string) | ExternalPlaceholder

  /** The name sqlite3.connect receives. */
  function Opened(b: Backend): (r: string)
    ensures b.SqliteFile? ==> r == b.path
    ensures b.ExternalPlaceholder? ==> r == Memory
  {
    match b
    case SqliteFile(p) => p
    case ExternalPlaceholder => Memory
  }

  /** get_db_connection as written: SQLite is used for ":memory:" and for every
      name that does NOT end in ".db"; a ".db" name reaches the placeholder.
      So the database opened is DB_NAME exactly when DB_NAME does not end in
      ".db", and the span label disagrees with the backend for every name but
      ":memory:". */
  function SelectAsWritten(name: string): (b: Backend)
    ensures EndsWith(name, FileSuffix) ==> Opened(b) == Memory
    ensures Opened(b) == name <==> !EndsWith(name, FileSuffix)
    ensures name != Memory ==> (b.SqliteFile? <==> SpanDbSystem(name) == "sql")
  {
    MemoryIsNotDbFile(Memory);
    if name == Memory || !EndsWith(name, FileSuffix) then SqliteFile(name) else ExternalPlaceholder
  }

  /** The `db.system` attribute of the traced variant's span: "sqlite" for
      ":memory:" and ".db" names, "sql" for anything else. */
  function SpanDbSystem(name: string): (r: string)
    ensures r == "sqlite" || r == "sql"
    ensures r == "sqlite" <==> name == Memory || EndsWith(name, FileSuffix)
  {
    if name == Memory || EndsWith(name, FileSuffix) then "sqlite" else "sql"
  }

  /** The concrete input: the persistent path the configuration comments
      recommend is silently replaced by an in-memory database, while its span
      claims SQLite. */
  lemma DataPathIsDiscarded(name: string)
    requires name == "/data/timestamps.db"
    ensures SelectAsWritten(name) == ExternalPlaceholder
    ensures Opened(SelectAsWritten(name)) == Memory
    ensures SpanDbSystem(name) == "sqlite"
  {
    assert name[|name| - 3..] == FileSuffix;
  }

  /** The selection the comments and the span label describe: SQLite for
      ":memory:" and ".db" names, the external placeholder for the rest. A
      ".db" path is then the file opened, and the span says "sqlite" exactly
      when a SQLite database is opened. */
  function SelectIntended(name: string): (b: Backend)
    ensures EndsWith(name, FileSuffix) ==> Opened(b) == name
    ensures name == Memory ==> Opened(b) == Memory
    ensures b.SqliteFile? <==> SpanDbSystem(name) == "sqlite"
  {
    if name == Memory || EndsWith(name, FileSuffix) then SqliteFile(name) else ExternalPlaceholder
  }

  // ---------------------------------------------------------------------------
  // Settings
  // ---------------------------------------------------------------------------

  /** What both variants read from the environment. The simulation switch is
      re-read on every write in the source; the environment never changes
      while the process runs, so reading it once is the same. */
  datatype Settings = Settings(name: string, backend: Backend, interval: int, simulate: bool)

  /** The settings as the program reads them: the database is chosen by the
      selection as written, so a ".db" name ends up at the placeholder. */
  function LoadSettings(env: Environment): (r: Settings)
    ensures r.name == DbName(env)
    ensures DbNameVar !in env ==> r.name == Memory && r.backend == SqliteFile(Memory)
    ensures r.backend == SelectAsWritten(r.name)
    ensures Opened(r.backend) == r.name <==> !EndsWith(r.name, FileSuffix)
    ensures r.interval == WriteInterval(env)
    ensures r.simulate == SimulateFlag(env)
    ensures r.simulate ==> SimulateVar in env
  {
    var name := DbName(env);
    Settings(name, SelectAsWritten(name), WriteInterval(env), SimulateFlag(env))
  }

  // ---------------------------------------------------------------------------
  // One write, untraced
  // ---------------------------------------------------------------------------

  /** A failure is simulated only when the switch is on and the current
      second is a multiple of ten. */
  function SimulatedNow(simulate: bool, second: nat): (r: bool)
    ensures r <==> simulate && second % 10 == 0
  {
    simulate && second % 10 == 0
  }

  /** With the switch on, the gate opens at exactly six seconds of every
      minute. */
  lemma SimulationGateSeconds(second: nat)
    requires second < 60
    ensures SimulatedNow(true, second) <==> second in {0, 10, 20, 30, 40, 50}
  {
  }

  /** How the try block ends: the simulated OperationalError is raised before
      any connection is made; otherwise the driver decides. */
  function AttemptResult(simulated: bool, r: DriverResult): (d: DriverResult)
    ensures simulated ==> d == Raised(OperationalError, SimulatedMessage)
    ensures !simulated ==> d == r
  {
    if simulated then Raised(OperationalError, SimulatedMessage) else r
  }

  /** A simulated failure always counts as a timeout; otherwise the text rule
      of the two SQLite variants decides. */
  function AttemptOutcome(simulated: bool, r: DriverResult): (o: Outcome)
    ensures o == Succeeded <==> !simulated && r == Done
    ensures o == Failed(true) <==> simulated || (r.Raised? && IsTimeoutText(r.message))
  {
    if simulated then Failed(true) else SqliteOutcome(r)
  }

  /** The outcome is the text rule applied to whatever the try block raised:
      the simulated error is a timeout because its message says "timeout". */
  lemma AttemptOutcomeIsTextRule(simulated: bool, r: DriverResult)
    ensures AttemptOutcome(simulated, r) == SqliteOutcome(AttemptResult(simulated, r))
  {
    if simulated {
      SimulatedMessageIsTimeout();
    }
  }

  /** One write: one latency observation, success alone on success, failure on
      every exception, and timeout with it when the text rule matches. */
  function WriteTimestamp(t: Tally, simulated: bool, r: DriverResult): (t': Tally)
    ensures Sound(t) ==> Sound(t')
    ensures Grows(t, t') && t'.observed == t.observed + 1
    ensures t'.success == t.success + (if !simulated && r == Done then 1 else 0)
    ensures t'.failure == t.failure + (if simulated || r.Raised? then 1 else 0)
    ensures t'.success + t'.failure == t.success + t.failure + 1
    ensures t'.timeout == t.timeout + (if simulated || (r.Raised? && IsTimeoutText(r.message)) then 1 else 0)
  {
    Record(t, AttemptOutcome(simulated, r))
  }

  // ---------------------------------------------------------------------------
  // The traced write
  // ---------------------------------------------------------------------------

  /** An OpenTelemetry status. Setting a status replaces the previous one. */
  datatype Status = Unset | StatusOk | StatusError(description: string)

  /** The `db_write` span as a record: its four attributes set at start, its
      status, the messages of the exceptions recorded on it, and the custom
      `db.timeout` attribute. */
  datatype Span = Span(
    dbSystem: string,
    dbName: string,
    operation: string,
    statement: string,
    status: Status,
    exceptions: seq<string>,
    timeout: bool)

  const Statement := "INSERT INTO timestamps (timestamp) VALUES (?)"

  /** The span as the write opens it, before any outcome is known. */
  function StartSpan(name: string): (s: Span)
    ensures s.status == Unset && s.exceptions == [] && !s.timeout
    ensures s.dbName == name && s.dbSystem == SpanDbSystem(name)
  {
    Span(SpanDbSystem(name), name, "INSERT", Statement, Unset, [], false)
  }

  /** The failure handler: failure first, then the span marked and
      the exception recorded, then timeout and `db.timeout` together. */
  function TracedFailure(t: Tally, span: Span, message: string): (r: (Tally, Span))
  {
    var t1 := t.(failure := t.failure + 1, observed := t.observed + 1);
    var s1 := span.(status := StatusError("Database write failed: " + message),
                    exceptions := span.exceptions + [message]);
    if IsTimeoutText(message) then (t1.(timeout := t1.timeout + 1), s1.(timeout := true))
    else (t1, s1)
  }

  /** The traced write, written out on its own: the simulated branch marks
      the span and records the exception before raising; the except block
      then marks and records again. */
  function TracedWrite(t: Tally, name: string, simulated: bool, r: DriverResult): (res: (Tally, Span))
    ensures res.1.dbSystem == SpanDbSystem(name) && res.1.dbName == name
    ensures res.0 == WriteTimestamp(t, simulated, r)
    ensures res.1.status == StatusOk <==> !simulated && r == Done
  {
    var span := StartSpan(name);
    if simulated then
      SimulatedMessageIsTimeout();
      var s1 := span.(status := StatusError(SimulatedMessage), exceptions := [SimulatedMessage]);
      TracedFailure(t, s1, SimulatedMessage)
    else
      match r
      case Done => (t.(success := t.success + 1, observed := t.observed + 1), span.(status := StatusOk))
      case Raised(_, m) => TracedFailure(t, span, m)
  }

  /** The traced write counts exactly as the untraced write does; its span is
      OK on success and ERROR on any failure, with the exception's text in
      the description; `db.timeout` is set exactly when the timeout counter
      rises. */
  lemma TracedWriteSpec(t: Tally, name: string, simulated: bool, r: DriverResult)
    ensures var res := TracedWrite(t, name, simulated, r);
      && res.0 == WriteTimestamp(t, simulated, r)
      && (res.1.status == StatusOk <==> res.0.success > t.success)
      && (res.1.status.StatusError? <==> res.0.failure > t.failure)
      && (res.1.timeout <==> res.0.timeout > t.timeout)
      && (res.1.status.StatusError? ==>
            res.1.status.description == "Database write failed: " + AttemptResult(simulated, r).message)
      && (!simulated ==> res.1.exceptions == (if r.Raised? then [r.message] else []))
  {
    if simulated {
      TracedSimulated(t, name, r);
    }
  }

  /** A simulated failure is a traced timeout whose exception is recorded on
      the span twice, once before it is raised and once when it is caught. */
  lemma TracedSimulated(t: Tally, name: string, r: DriverResult)
    ensures var res := TracedWrite(t, name, true, r);
      && res.0 == WriteTimestamp(t, true, r)
      && res.1.status == StatusError("Database write failed: " + SimulatedMessage)
      && res.1.timeout
      && res.1.exceptions == [SimulatedMessage, SimulatedMessage]
  {
    SimulatedMessageIsTimeout();
  }

  // ---------------------------------------------------------------------------
  // The write loop, both variants
  // ---------------------------------------------------------------------------

  /** What one pass of the loop is given: the current second and how the
      driver would answer. */
  datatype Tick = Tick(second: nat, result: DriverResult)

  datatype Writer = Writer(tally: Tally, events: seq<Event>)

  /** One pass: one write attempt, then one sleep of the configured interval. */
  function Pass(w: Writer, st: Settings, tick: Tick): (r: Writer)
    ensures r.tally == WriteTimestamp(w.tally, SimulatedNow(st.simulate, tick.second), tick.result)
    ensures |r.events| == |w.events| + 2 && r.events[..|w.events|] == w.events
    ensures r.events[|w.events|].Attempted? && r.events[|w.events|].target == Opened(st.backend)
    ensures r.events[|w.events| + 1] == Slept(st.interval)
  {
    var sim := SimulatedNow(st.simulate, tick.second);
    Writer(WriteTimestamp(w.tally, sim, tick.result),
           w.events + [Attempted(Opened(st.backend), AttemptOutcome(sim, tick.result)), Slept(st.interval)])
  }

  function Run(w: Writer, st: Settings, ticks: seq<Tick>): Writer
    decreases |ticks|
  {
    if ticks == [] then w else Run(Pass(w, st, ticks[0]), st, ticks[1..])
  }

  /** The event log is a sequence of passes: each an attempt against the
      configured database followed by a sleep of the configured interval. */
  predicate Alternates(events: seq<Event>, st: Settings)
    decreases |events|
  {
    || events == []
    || (&& |events| >= 2
        && events[|events| - 2].Attempted?
        && events[|events| - 2].target == Opened(st.backend)
        && events[|events| - 1] == Slept(st.interval)
        && Alternates(events[..|events| - 2], st))
  }

  /** The counters an event log implies: every attempt recorded in order. */
  function TallyOf(events: seq<Event>): Tally
    decreases |events|
  {
    if events == [] then Zero
    else
      var t := TallyOf(events[..|events| - 1]);
      match events[|events| - 1]
      case Attempted(_, o) => Record(t, o)
      case Slept(_) => t
  }

  /** The writer's counters are the ones its log implies, and the log
      alternates. */
  predicate Consistent(w: Writer, st: Settings) {
    w.tally == TallyOf(w.events) && Alternates(w.events, st)
  }

  lemma PassConsistent(w: Writer, st: Settings, tick: Tick)
    requires Consistent(w, st)
    ensures Consistent(Pass(w, st, tick), st)
  {
    var r := Pass(w, st, tick);
    var n := |w.events|;
    assert r.events[..n] == w.events;
    assert r.events[..n + 1][..n] == w.events;
    assert r.events[..|r.events| - 1] == r.events[..n + 1];
    assert TallyOf(r.events[..n + 1]) == r.tally;
  }

  /** Any number of passes keeps the log consistent. */
  lemma {:induction false} RunConsistent(w: Writer, st: Settings, ticks: seq<Tick>)
    requires Consistent(w, st)
    ensures Consistent(Run(w, st, ticks), st)
    decreases |ticks|
  {
    if ticks != [] {
      PassConsistent(w, st, ticks[0]);
      RunConsistent(Pass(w, st, ticks[0]), st, ticks[1..]);
    }
  }

  /** Each pass adds one attempt and one sleep to the log and exactly one
      latency observation to the counters, which only grow and stay sound. */
  lemma {:induction false} RunCounts(w: Writer, st: Settings, ticks: seq<Tick>)
    ensures var r := Run(w, st, ticks);
      && |r.events| == |w.events| + 2 * |ticks|
      && r.tally.observed == w.tally.observed + |ticks|
      && Grows(w.tally, r.tally)
      && (Sound(w.tally) ==> Sound(r.tally))
    decreases |ticks|
  {
    if ticks != [] {
      RunCounts(Pass(w, st, ticks[0]), st, ticks[1..]);
    }
  }

  /** The process: the loop starts with every counter at zero and an empty
      log; its counters are always sound and always the ones its log says. */
  lemma ProcessSpec(st: Settings, ticks: seq<Tick>)
    ensures var r := Run(Writer(Zero, []), st, ticks);
      && Consistent(r, st)
      && Sound(r.tally)
      && r.tally.observed == |ticks|
      && |r.events| == 2 * |ticks|
  {
    var w := Writer(Zero, []);
    EmptyConsistent(w, st);
    RunConsistent(w, st, ticks);
    RunCounts(w, st, ticks);
  }

  lemma EmptyConsistent(w: Writer, st: Settings)
    requires w.tally == Zero && w.events == []
    ensures Consistent(w, st)
  {
    assert TallyOf(w.events) == Zero;
    assert Alternates(w.events, st);
  }

  /** Every pass falls on a multiple of ten seconds. */
  predicate OnTheTen(ticks: seq<Tick>) {
    forall i :: 0 <= i < |ticks| ==> ticks[i].second % 10 == 0
  }

  /** With the switch on and every pass on a multiple of ten seconds, every
      attempt is a timeout failure, whatever the driver would have said. */
  lemma {:induction false} SimulatedRun(w: Writer, st: Settings, ticks: seq<Tick>)
    requires st.simulate && OnTheTen(ticks)
    ensures var r := Run(w, st, ticks);
      && r.tally.success == w.tally.success
      && r.tally.failure == w.tally.failure + |ticks|
      && r.tally.timeout == w.tally.timeout + |ticks|
    decreases |ticks|
  {
    if ticks != [] {
      assert ticks[0].second % 10 == 0;
      assert OnTheTen(ticks[1..]) by {
        forall i | 0 <= i < |ticks[1..]|
          ensures ticks[1..][i].second % 10 == 0
        {
          assert ticks[1..][i] == ticks[i + 1];
        }
      }
      SimulatedRun(Pass(w, st, ticks[0]), st, ticks[1..]);
    }
  }

  /** The traced loop: the same passes, each also producing its span. */
  function TracedRun(t: Tally, st: Settings, ticks: seq<Tick>): (r: (Tally, seq<Span>))
    ensures |r.1| == |ticks|
    decreases |ticks|
  {
    if ticks == [] then (t, [])
    else
      var step := TracedWrite(t, st.name, SimulatedNow(st.simulate, ticks[0].second), ticks[0].result);
      var rest := TracedRun(step.0, st, ticks[1..]);
      (rest.0, [step.1] + rest.1)
  }

  /** Tracing changes no counter: the traced loop ends with the counters of
      the untraced one, and its i-th span is ERROR exactly when the i-th
      attempt failed. */
  lemma {:induction false} TracedRunAgrees(w: Writer, st: Settings, ticks: seq<Tick>)
    ensures TracedRun(w.tally, st, ticks).0 == Run(w, st, ticks).tally
    ensures forall i :: 0 <= i < |ticks| ==>
      (TracedRun(w.tally, st, ticks).1[i].status.StatusError? <==>
        AttemptOutcome(SimulatedNow(st.simulate, ticks[i].second), ticks[i].result) != Succeeded)
    decreases |ticks|
  {
    if ticks != [] {
      var sim := SimulatedNow(st.simulate, ticks[0].second);
      var step := TracedWrite(w.tally, st.name, sim, ticks[0].result);
      var w1 := Pass(w, st, ticks[0]);
      TracedWriteSpec(w.tally, st.name, sim, ticks[0].result);
      assert step.0 == w1.tally;
      TracedRunAgrees(w1, st, ticks[1..]);
      var spans := TracedRun(w.tally, st, ticks).1;
      forall i | 0 <= i < |ticks|
        ensures spans[i].status.StatusError? <==>
          AttemptOutcome(SimulatedNow(st.simulate, ticks[i].second), ticks[i].result) != Succeeded
      {
        if i > 0 {
          assert spans[i] == TracedRun(w1.tally, st, ticks[1..]).1[i - 1];
          assert ticks[i] == ticks[1..][i - 1];
        }
      }
    }
  }
}
