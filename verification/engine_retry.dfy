/** The single-database writer of initial/app1.py: a global engine slot that
    init_db_engine fills with a bounded number of connection attempts, a
    status gauge, a write loop that re-runs the initialisation after any
    failed write, and the /health decision.

    Each SQLAlchemy call is replaced by the next element of an oracle
    stream: `connects(k)` is how the k-th connection test of the process
    ends, `writes(k)` how the k-th write ends. The state keeps both cursors,
    so an engine is identified by the connection test that created it. */
module EngineRetry {
  import opened Results
  import opened Metrics
  import opened Classify

  /** The engine created by connection test number `id`. */
  datatype Engine = Engine(id: nat)

  datatype Oracle = Oracle(connects: nat -> EngineCall, writes: nat -> EngineCall)

  /** The process state that the writer thread changes. `gauge` is
      DB_ENGINE_STATUS; `sleeps` are the arguments of `time.sleep`, in order. */
  datatype State = State(
    engine: Option<Engine>,
    gauge: int,
    connect: Series,
    write: Series,
    sleeps: seq<nat>,
    nextConnect: nat,
    nextWrite: nat)

  /** The state at import time: no engine, nothing counted. */
  const Initial := State(None, 0, EmptySeries, EmptySeries, [], 0, 0)

  /** Connection attempts per call of the engine initialiser. */
  const Retries := 5

  /** Seconds slept after a failed connection attempt and before retrying
      a missing engine. */
  const RetryDelay := 5

  /** Seconds slept after every write attempt. */
  const WriteDelay := 2

  /** `n` sleeps of `d` seconds. */
  function Sleeps(n: nat, d: nat): (r: seq<nat>)
    ensures |r| == n && forall i :: 0 <= i < n ==> r[i] == d
  {
    seq(n, _ => d)
  }

  /** None of the `n` connection tests from `from` on succeeds. */
  predicate NoneOk(o: Oracle, from: nat, n: nat) {
    forall j :: from <= j < from + n ==> !o.connects(j).Ok?
  }

  /** One connection test: counted under its outcome's labels, its latency
      observed and stored in the gauge of its status. */
  function ConnectAttempt(s: State, o: Oracle): (r: State)
    ensures r.nextConnect == s.nextConnect + 1
    ensures CountedOnce(s.connect, r.connect, EngineOutcome(o.connects(s.nextConnect)))
    ensures r.connect.observed == s.connect.observed + 1
    ensures TotalOf(r.connect) == TotalOf(s.connect) + 1
    ensures SeriesSound(s.connect) ==> SeriesSound(r.connect)
    ensures r.engine == s.engine && r.gauge == s.gauge && r.write == s.write
    ensures r.sleeps == s.sleeps && r.nextWrite == s.nextWrite
  {
    var c := o.connects(s.nextConnect);
    s.(connect := Observe(s.connect, EngineOutcome(c), c.latency), nextConnect := s.nextConnect + 1)
  }

  /** The retry loop of the engine initialiser. The
      retry budget is kept as the index `stop` of the first connection test
      the call may no longer make, so `stop - s.nextConnect` attempts are
      left. A success installs the new engine, sets the gauge and stops. A
      driver error sleeps and retries while attempts remain, and on the last
      attempt clears the engine and the gauge. An unexpected error always
      sleeps and never touches engine or gauge. */
  function InitLoop(s: State, o: Oracle, stop: nat): (r: State)
    ensures stop <= s.nextConnect ==> r == s
    ensures s.nextConnect < stop ==> s.nextConnect < r.nextConnect <= stop
    ensures r.write == s.write && r.nextWrite == s.nextWrite
    ensures |r.sleeps| >= |s.sleeps| && r.sleeps[..|s.sleeps|] == s.sleeps
    ensures r.gauge == s.gauge || r.gauge == 0 || r.gauge == 1
    decreases stop - s.nextConnect
  {
    if stop <= s.nextConnect then s
    else
      var k := s.nextConnect;
      var s1 := ConnectAttempt(s, o);
      match o.connects(k)
      case Ok(_) => s1.(engine := Some(Engine(k)), gauge := 1)
      case DriverError(_, _) =>
        if s1.nextConnect < stop then InitLoop(s1.(sleeps := s1.sleeps + [RetryDelay]), o, stop)
        else s1.(engine := None, gauge := 0)
      case Unexpected(_, _) =>
        InitLoop(s1.(sleeps := s1.sleeps + [RetryDelay]), o, stop)
  }

  /** What a call of the loop does when attempts are left: it makes at least
      one connection test and none at or beyond `stop`, and `Settled`
      describes the state after the last of them. */
  predicate LoopOutcome(s: State, o: Oracle, stop: nat, r: State) {
    && s.nextConnect < r.nextConnect <= stop
    && Settled(s, o, stop, r.nextConnect - 1, r)
  }

  /** The loop ended with connection test `k`, after `k - s.nextConnect`
      failed tests. */
  predicate Settled(s: State, o: Oracle, stop: nat, k: nat, r: State)
    requires s.nextConnect <= k
  {
    var failed := k - s.nextConnect;
    var last := o.connects(k);
    && NoneOk(o, s.nextConnect, failed)
    && (k + 1 < stop ==> last.Ok?)
    && (last.Ok? ==> r.engine == Some(Engine(k)) && r.gauge == 1)
    && (last.DriverError? ==> r.engine == None && r.gauge == 0)
    && (last.Unexpected? ==> r.engine == s.engine && r.gauge == s.gauge)
    && r.sleeps == s.sleeps + Sleeps(failed + (if last.Unexpected? then 1 else 0), RetryDelay)
    && r.connect.observed == s.connect.observed + failed + 1
    && TotalOf(r.connect) == TotalOf(s.connect) + failed + 1
    && (SeriesSound(s.connect) ==> SeriesSound(r.connect))
    && r.write == s.write && r.nextWrite == s.nextWrite
  }

  lemma {:induction false} InitLoopOutcome(s: State, o: Oracle, stop: nat)
    requires s.nextConnect < stop
    ensures LoopOutcome(s, o, stop, InitLoop(s, o, stop))
    decreases stop - s.nextConnect
  {
    var k := s.nextConnect;
    var s1 := ConnectAttempt(s, o);
    var r := InitLoop(s, o, stop);
    match o.connects(k)
    case Ok(_) =>
      assert r == s1.(engine := Some(Engine(k)), gauge := 1);
      assert s.sleeps + Sleeps(0, RetryDelay) == s.sleeps;
    case DriverError(_, _) =>
      if s1.nextConnect < stop {
        var s2 := s1.(sleeps := s1.sleeps + [RetryDelay]);
        InitLoopOutcome(s2, o, stop);
        LoopStep(s, s2, o, stop, r);
      } else {
        assert r == s1.(engine := None, gauge := 0);
        assert s.sleeps + Sleeps(0, RetryDelay) == s.sleeps;
      }
    case Unexpected(_, _) =>
      var s2 := s1.(sleeps := s1.sleeps + [RetryDelay]);
      if s1.nextConnect < stop {
        InitLoopOutcome(s2, o, stop);
        LoopStep(s, s2, o, stop, r);
      } else {
        assert r == s2;
        assert s2.sleeps == s.sleeps + Sleeps(1, RetryDelay);
      }
  }

  /** A failed first attempt followed by the rest of the loop adds up to one
      loop outcome. */
  lemma LoopStep(s: State, s2: State, o: Oracle, stop: nat, r: State)
    requires s.nextConnect + 1 < stop
    requires !o.connects(s.nextConnect).Ok?
    requires s2.nextConnect == s.nextConnect + 1
    requires s2.connect.observed == s.connect.observed + 1
    requires TotalOf(s2.connect) == TotalOf(s.connect) + 1
    requires SeriesSound(s.connect) ==> SeriesSound(s2.connect)
    requires s2.engine == s.engine && s2.gauge == s.gauge
    requires s2.write == s.write && s2.nextWrite == s.nextWrite
    requires s2.sleeps == s.sleeps + [RetryDelay]
    requires LoopOutcome(s2, o, stop, r)
    ensures LoopOutcome(s, o, stop, r)
  {
    var k := r.nextConnect - 1;
    var m := k - s2.nextConnect + (if o.connects(k).Unexpected? then 1 else 0);
    assert r.sleeps == s.sleeps + [RetryDelay] + Sleeps(m, RetryDelay);
    assert [RetryDelay] + Sleeps(m, RetryDelay) == Sleeps(m + 1, RetryDelay);
    assert NoneOk(o, s.nextConnect, k - s.nextConnect) by {
      forall j | s.nextConnect <= j < k
        ensures !o.connects(j).Ok?
      {
        if j > s.nextConnect {
          assert s2.nextConnect <= j < s2.nextConnect + (k - s2.nextConnect);
        }
      }
    }
  }

  /** The engine initialiser: the gauge is reset to 0, then the loop runs
      with a budget of five attempts. */
  function InitDbEngine(s: State, o: Oracle): (r: State)
    ensures s.nextConnect < r.nextConnect <= s.nextConnect + Retries
    ensures r.write == s.write && r.nextWrite == s.nextWrite
    ensures |r.sleeps| >= |s.sleeps| && r.sleeps[..|s.sleeps|] == s.sleeps
    ensures r.gauge == 0 || r.gauge == 1
  {
    InitLoop(s.(gauge := 0), o, s.nextConnect + Retries)
  }

  /** What init_db_engine promises. It makes between one and five connection
      tests and stops at the first success. The gauge ends at 1 exactly when
      the last test succeeded, and then the engine is the one that test
      created. Every test adds one counter increment and one latency
      observation. Each failed test sleeps five seconds, except a driver
      error on the fifth. */
  lemma InitDbEngineSpec(s: State, o: Oracle)
    ensures var r := InitDbEngine(s, o);
      s.nextConnect < r.nextConnect <= s.nextConnect + Retries
    ensures var r := InitDbEngine(s, o);
      var n := r.nextConnect - s.nextConnect;
      var last := o.connects(r.nextConnect - 1);
      && NoneOk(o, s.nextConnect, n - 1)
      && (n < Retries ==> last.Ok?)
      && (r.gauge == 1 <==> last.Ok?)
      && (r.gauge == 0 <==> !last.Ok?)
      && (last.Ok? ==> r.engine == Some(Engine(r.nextConnect - 1)))
      && r.sleeps == s.sleeps + Sleeps(n - 1 + (if last.Unexpected? then 1 else 0), RetryDelay)
      && |r.sleeps| == |s.sleeps| + (n - 1) + (if last.Unexpected? then 1 else 0)
      && r.connect.observed == s.connect.observed + n
      && TotalOf(r.connect) == TotalOf(s.connect) + n
      && (SeriesSound(s.connect) ==> SeriesSound(r.connect))
      && r.write == s.write && r.nextWrite == s.nextWrite
  {
    InitLoopOutcome(s.(gauge := 0), o, s.nextConnect + Retries);
  }

  /** When all five tests fail and the fifth is a driver error,
      the engine slot is emptied and four sleeps were taken. */
  lemma FinalDriverErrorClearsEngine(s: State, o: Oracle)
    requires NoneOk(o, s.nextConnect, Retries)
    requires o.connects(s.nextConnect + Retries - 1).DriverError?
    ensures var r := InitDbEngine(s, o);
      r.engine == None && r.gauge == 0 && |r.sleeps| == |s.sleeps| + Retries - 1
  {
    InitLoopOutcome(s.(gauge := 0), o, s.nextConnect + Retries);
    FinalIsFifth(s, o);
  }

  /** When all five tests fail and the fifth is an unexpected
      error, the loop simply runs out. The engine keeps whatever it held
      before, the gauge says 0, and five sleeps were taken. */
  lemma FinalUnexpectedKeepsEngine(s: State, o: Oracle)
    requires NoneOk(o, s.nextConnect, Retries)
    requires o.connects(s.nextConnect + Retries - 1).Unexpected?
    ensures var r := InitDbEngine(s, o);
      r.engine == s.engine && r.gauge == 0 && |r.sleeps| == |s.sleeps| + Retries
  {
    InitLoopOutcome(s.(gauge := 0), o, s.nextConnect + Retries);
    FinalIsFifth(s, o);
  }

  /** Without a success, all five tests are made. */
  lemma FinalIsFifth(s: State, o: Oracle)
    requires NoneOk(o, s.nextConnect, Retries)
    requires LoopOutcome(s.(gauge := 0), o, s.nextConnect + Retries, InitDbEngine(s, o))
    ensures InitDbEngine(s, o).nextConnect == s.nextConnect + Retries
  {
    var k := InitDbEngine(s, o).nextConnect - 1;
    assert s.nextConnect <= k < s.nextConnect + Retries;
    assert !o.connects(k).Ok?;
  }

  /** What the write loop needs of init_db_engine: at least one connection
      test, writes untouched, the sleeps only extended, and the invariant
      kept. */
  lemma InitFrame(s: State, o: Oracle)
    ensures var r := InitDbEngine(s, o);
      && r.nextConnect > s.nextConnect
      && r.write == s.write && r.nextWrite == s.nextWrite
      && |r.sleeps| >= |s.sleeps|
      && (Inv(s, o) ==> Inv(r, o))
  {
    var s0 := s.(gauge := 0);
    InitLoopOutcome(s0, o, s.nextConnect + Retries);
    var r := InitDbEngine(s, o);
    var k := r.nextConnect - 1;
    assert Settled(s0, o, s.nextConnect + Retries, k, r);
    if Inv(s, o) {
      match o.connects(k)
      case Ok(_) =>
      case DriverError(_, _) =>
      case Unexpected(_, _) =>
        assert r.engine == s.engine && r.gauge == 0;
    }
  }

  // ---------------------------------------------------------------------------
  // The write loop
  // ---------------------------------------------------------------------------

  /** One pass of the write loop with an engine present: one write, counted
      and observed; on any failure the initialiser runs again; then two
      seconds of sleep. */
  function WriteAttempt(s: State, o: Oracle): (r: State)
    ensures r.nextWrite == s.nextWrite + 1
    ensures CountedOnce(s.write, r.write, EngineOutcome(o.writes(s.nextWrite)))
    ensures r.write.observed == s.write.observed + 1
    ensures o.writes(s.nextWrite).Ok? <==> r.nextConnect == s.nextConnect
    ensures |r.sleeps| > |s.sleeps| && r.sleeps[..|s.sleeps|] == s.sleeps
    ensures r.sleeps[|r.sleeps| - 1] == WriteDelay
  {
    var c := o.writes(s.nextWrite);
    var s1 := s.(write := Observe(s.write, EngineOutcome(c), c.latency), nextWrite := s.nextWrite + 1);
    var s2 := if c.Ok? then s1 else InitDbEngine(s1, o);
    s2.(sleeps := s2.sleeps + [WriteDelay])
  }

  /** One pass of the `while True` loop: a missing engine is re-initialised
      first; if it is still missing the pass sleeps five seconds and skips
      the write. */
  function WriteIteration(s: State, o: Oracle): (r: State)
    ensures r.nextWrite == s.nextWrite || r.nextWrite == s.nextWrite + 1
    ensures r.nextWrite == s.nextWrite ==> r.write == s.write && r.engine.None?
    ensures |r.sleeps| > |s.sleeps| && r.sleeps[..|s.sleeps|] == s.sleeps
    ensures r.sleeps[|r.sleeps| - 1] == (if r.nextWrite == s.nextWrite then RetryDelay else WriteDelay)
  {
    if s.engine.None? then
      var s1 := InitDbEngine(s, o);
      if s1.engine.None? then s1.(sleeps := s1.sleeps + [RetryDelay])
      else WriteAttempt(s1, o)
    else WriteAttempt(s, o)
  }

  /** What holds of the writer's state between passes. The counter families
      are sound; the gauge is 0 or 1 and says 1 only with an engine present;
      an engine present is one a past connection test created successfully. */
  predicate Inv(s: State, o: Oracle) {
    && SeriesSound(s.connect) && SeriesSound(s.write)
    && (s.gauge == 0 || s.gauge == 1)
    && (s.gauge == 1 ==> s.engine.Some?)
    && (s.engine.Some? ==> s.engine.value.id < s.nextConnect && o.connects(s.engine.value.id).Ok?)
  }

  lemma InitialInv(o: Oracle)
    ensures Inv(Initial, o)
  {
  }

  /** What one pass does. It either makes exactly one write attempt, counted
      once and observed once, and ends with a two-second sleep; or it finds
      no engine even after re-initialising, skips the write and ends with a
      five-second sleep. Connection tests run exactly when the engine was
      missing or the write failed. */
  lemma WriteIterationSpec(s: State, o: Oracle)
    requires Inv(s, o)
    ensures var r := WriteIteration(s, o);
      && Inv(r, o)
      && (r.nextWrite == s.nextWrite + 1 || r.nextWrite == s.nextWrite)
      && r.write.observed == s.write.observed + (r.nextWrite - s.nextWrite)
      && TotalOf(r.write) == TotalOf(s.write) + (r.nextWrite - s.nextWrite)
      && |r.sleeps| > |s.sleeps|
      && r.sleeps[|r.sleeps| - 1] == (if r.nextWrite == s.nextWrite then RetryDelay else WriteDelay)
      && (r.nextWrite == s.nextWrite <==> s.engine.None? && InitDbEngine(s, o).engine.None?)
      && (r.nextConnect > s.nextConnect <==>
            s.engine.None? || !o.writes(s.nextWrite).Ok?)
  {
    if s.engine.None? {
      var s1 := InitDbEngine(s, o);
      InitFrame(s, o);
      if s1.engine.Some? {
        WriteAttemptSpec(s1, o);
      }
    } else {
      WriteAttemptSpec(s, o);
    }
  }

  lemma WriteAttemptSpec(s: State, o: Oracle)
    requires Inv(s, o)
    ensures var r := WriteAttempt(s, o);
      && Inv(r, o)
      && r.nextWrite == s.nextWrite + 1
      && CountedOnce(s.write, r.write, EngineOutcome(o.writes(s.nextWrite)))
      && r.write.observed == s.write.observed + 1
      && TotalOf(r.write) == TotalOf(s.write) + 1
      && r.sleeps[|r.sleeps| - 1] == WriteDelay
      && |r.sleeps| > |s.sleeps|
      && (r.nextConnect > s.nextConnect <==> !o.writes(s.nextWrite).Ok?)
      && (o.writes(s.nextWrite).Ok? ==> r.engine == s.engine && r.nextConnect == s.nextConnect)
  {
    var c := o.writes(s.nextWrite);
    var s1 := s.(write := Observe(s.write, EngineOutcome(c), c.latency), nextWrite := s.nextWrite + 1);
    assert Inv(s1, o);
    if !c.Ok? {
      InitFrame(s1, o);
    }
  }

  /** `n` passes of the write loop. */
  function Passes(s: State, o: Oracle, n: nat): State
    decreases n
  {
    if n == 0 then s else Passes(WriteIteration(s, o), o, n - 1)
  }

  /** From `s` to `r` over `n` passes: at most one write per pass, each
      counted and observed once, and at least one sleep per pass. */
  predicate Progress(s: State, r: State, n: nat) {
    && s.nextWrite <= r.nextWrite <= s.nextWrite + n
    && r.write.observed == s.write.observed + (r.nextWrite - s.nextWrite)
    && TotalOf(r.write) == TotalOf(s.write) + (r.nextWrite - s.nextWrite)
    && |r.sleeps| >= |s.sleeps| + n
  }

  /** One pass followed by `n - 1` more is `n` passes. */
  lemma ProgressChain(a: State, b: State, c: State, n: nat)
    requires n > 0 && Progress(a, b, 1) && Progress(b, c, n - 1)
    ensures Progress(a, c, n)
  {
  }

  /** Over any number of passes the invariant holds, at most one write is
      attempted per pass, and every write attempt was counted and observed
      exactly once. */
  lemma {:induction false} PassesSpec(s: State, o: Oracle, n: nat)
    requires Inv(s, o)
    ensures Inv(Passes(s, o, n), o) && Progress(s, Passes(s, o, n), n)
    decreases n
  {
    if n > 0 {
      var s1 := WriteIteration(s, o);
      WriteIterationSpec(s, o);
      assert Inv(s1, o) && Progress(s, s1, 1);
      PassesSpec(s1, o, n - 1);
      ProgressChain(s, s1, Passes(s1, o, n - 1), n);
    }
  }

  /** The process initialises once, then runs the write loop. */
  function Process(o: Oracle, n: nat): State {
    Passes(InitDbEngine(Initial, o), o, n)
  }

  lemma ProcessSpec(o: Oracle, n: nat)
    ensures var r := Process(o, n);
      && Inv(r, o)
      && r.nextWrite <= n
      && r.write.observed == r.nextWrite
      && TotalOf(r.write) == r.nextWrite
  {
    InitialInv(o);
    InitFrame(Initial, o);
    var s := InitDbEngine(Initial, o);
    assert s.write == EmptySeries && s.nextWrite == 0;
    PassesFromNothing(s, o, n);
  }

  /** Passes that start with no write attempted count every attempt once. */
  lemma PassesFromNothing(s: State, o: Oracle, n: nat)
    requires Inv(s, o) && s.write == EmptySeries && s.nextWrite == 0
    ensures var r := Passes(s, o, n);
      && Inv(r, o)
      && r.nextWrite <= n
      && r.write.observed == r.nextWrite
      && TotalOf(r.write) == r.nextWrite
  {
    assert TotalOf(s.write) == 0;
    PassesSpec(s, o, n);
  }

  // ---------------------------------------------------------------------------
  // The health endpoint
  // ---------------------------------------------------------------------------

  /** How the `SELECT 1` probe of /health ends. */
  datatype Probe = ProbeOk | ProbeSqlError(message: string) | ProbeOther(message: string)

  /** The JSON reply, or an exception that is not a SQLAlchemyError and
      escapes the handler. */
  datatype HealthReply =
    | Reply(code: nat, status: string, connection: string)
    | Unhandled(message: string)

  /** The reply depends only on the engine slot and the probe; no state is
      returned, so the handler never assigns the engine. */
  function Health(engine: Option<Engine>, probe: Probe): (r: HealthReply)
    ensures r.Reply? && r.code == 200 <==> engine.Some? && probe.ProbeOk?
    ensures engine.None? ==> r == Reply(500, "unhealthy", "engine not initialized")
    ensures engine.Some? && probe.ProbeSqlError? ==> r == Reply(500, "unhealthy", "failed: " + probe.message)
    ensures r.Unhandled? <==> engine.Some? && probe.ProbeOther?
    ensures r.Reply? && r.code == 200 ==> r.status == "healthy" && r.connection == "successful"
  {
    match engine
    case None => Reply(500, "unhealthy", "engine not initialized")
    case Some(_) =>
      match probe
      case ProbeOk => Reply(200, "healthy", "successful")
      case ProbeSqlError(m) => Reply(500, "unhealthy", "failed: " + m)
      case ProbeOther(m) => Unhandled(m)
  }

  /** The gauge and the engine slot can disagree. After an engine existed, a
      re-initialisation whose five tests all raise unexpected errors leaves
      the gauge at 0 while the old engine stays in place, so /health can
      still answer 200. */
  lemma StaleEngineAfterUnexpectedErrors()
    ensures var s := Initial.(engine := Some(Engine(0)), gauge := 1, nextConnect := 1);
      var o := Oracle(k => if k == 0 then EngineCall.Ok(0) else Unexpected("boom", 0), k => EngineCall.Ok(0));
      var r := InitDbEngine(s, o);
      && Inv(s, o)
      && r.gauge == 0 && r.engine == Some(Engine(0))
      && Health(r.engine, ProbeOk).code == 200
  {
    var s := Initial.(engine := Some(Engine(0)), gauge := 1, nextConnect := 1);
    var o := Oracle(k => if k == 0 then EngineCall.Ok(0) else Unexpected("boom", 0), k => EngineCall.Ok(0));
    FinalUnexpectedKeepsEngine(s, o);
  }
}
