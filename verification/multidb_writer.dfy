/** The write loop of the multi-target writer (multidb-without-tracing/app.py):
    counters registered at zero for every target at start-up, then rounds that
    attempt every target once, in configuration order, and sleep once. Each
    attempt opens its own connection, so there is no connection state; the
    driver is replaced by one DriverResult per attempt. */
module MultiDbWriter {
  import opened Metrics
  import opened Classify
  import opened MultiDbConfig

  /** What one write_timestamp_to_db call amounts to. With the simulation
      switch on, a synthetic OperationalError is raised before any connection
      is made, so the driver's result plays no part. */
  function AttemptOutcome(simulate: bool, r: DriverResult): (o: Outcome)
    ensures simulate ==> o == Failed(true)
    ensures !simulate ==> o == MultiDbOutcome(r)
  {
    if simulate then Failed(true) else MultiDbOutcome(r)
  }

  /** One write_timestamp_to_db call for target `t`: the latency histogram of
      its label gets one observation, a success bumps only the success
      counter, an OperationalError (real or simulated) bumps timeout and
      failure, any other exception bumps failure only. */
  function WriteTimestamp(reg: Registry, t: Target, simulate: bool, r: DriverResult): (reg': Registry)
    ensures t.name in reg'
    ensures var a, b := Get(reg, t.name), Get(reg', t.name);
      && b.observed == a.observed + 1
      && b.success == a.success + (if !simulate && r == Done then 1 else 0)
      && b.failure == a.failure + (if !simulate && r == Done then 0 else 1)
      && b.timeout == a.timeout + (if simulate || (r.Raised? && r.kind == OperationalError) then 1 else 0)
  {
    Bump(reg, t.name, AttemptOutcome(simulate, r))
  }

  /** A write for one target touches no other label. */
  lemma WriteTimestampAt(reg: Registry, t: Target, simulate: bool, r: DriverResult, l: string)
    ensures l in WriteTimestamp(reg, t, simulate, r) <==> l in reg || l == t.name
    ensures l != t.name ==> Get(WriteTimestamp(reg, t, simulate, r), l) == Get(reg, l)
  {
    BumpAt(reg, t.name, AttemptOutcome(simulate, r), l);
  }

  /** The number of configured targets carrying `name`. DATABASE_NAMES may
      repeat a name; such targets share one label. */
  function Occurrences(name: string, targets: seq<Target>): nat {
    if targets == [] then 0
    else (if targets[0].name == name then 1 else 0) + Occurrences(name, targets[1..])
  }

  /** The attempts of one round, target by target. `results[i]` is what the
      driver does for `targets[i]`; an error on one target is recorded and the
      next target is still attempted. */
  function Attempts(reg: Registry, targets: seq<Target>, simulate: bool, results: seq<DriverResult>)
    : (r: (Registry, seq<Event>))
    requires |results| == |targets|
    ensures |r.1| == |targets|
    ensures EventsMatch(r.1, targets, simulate, results)
    decreases |targets|
  {
    if targets == [] then (reg, [])
    else
      var mid := WriteTimestamp(reg, targets[0], simulate, results[0]);
      var rest := Attempts(mid, targets[1..], simulate, results[1..]);
      var e := Attempted(targets[0].name, AttemptOutcome(simulate, results[0]));
      ConsEvents(e, rest.1, targets, simulate, results);
      (rest.0, [e] + rest.1)
  }

  /** One unfolding of a non-empty round, read at label `l`: the first target
      is written, then the rest of the round runs. */
  lemma AttemptsStep(reg: Registry, targets: seq<Target>, simulate: bool, results: seq<DriverResult>, l: string)
    requires |results| == |targets| && targets != []
    ensures var mid := WriteTimestamp(reg, targets[0], simulate, results[0]);
      Attempts(reg, targets, simulate, results).0 == Attempts(mid, targets[1..], simulate, results[1..]).0
    ensures Occurrences(l, targets) == (if targets[0].name == l then 1 else 0) + Occurrences(l, targets[1..])
  {
  }

  /** The events of a round name the targets in configuration order, each with
      the outcome its driver result amounts to. */
  lemma {:induction false} AttemptsEvents(reg: Registry, targets: seq<Target>, simulate: bool, results: seq<DriverResult>)
    requires |results| == |targets|
    ensures EventsMatch(Attempts(reg, targets, simulate, results).1, targets, simulate, results)
    decreases |targets|
  {
    if targets != [] {
      var mid := WriteTimestamp(reg, targets[0], simulate, results[0]);
      var rest := Attempts(mid, targets[1..], simulate, results[1..]).1;
      AttemptsEvents(mid, targets[1..], simulate, results[1..]);
      var e := Attempted(targets[0].name, AttemptOutcome(simulate, results[0]));
      assert Attempts(reg, targets, simulate, results).1 == [e] + rest;
      ConsEvents(e, rest, targets, simulate, results);
    }
  }

  /** `ev[i]` is the attempt on `targets[i]` with the outcome `results[i]`
      amounts to. */
  predicate EventsMatch(ev: seq<Event>, targets: seq<Target>, simulate: bool, results: seq<DriverResult>)
    requires |ev| == |targets| == |results|
  {
    forall i :: 0 <= i < |targets| ==> ev[i] == Attempted(targets[i].name, AttemptOutcome(simulate, results[i]))
  }

  lemma ConsEvents(e: Event, rest: seq<Event>, targets: seq<Target>, simulate: bool, results: seq<DriverResult>)
    requires |rest| + 1 == |targets| == |results|
    requires e == Attempted(targets[0].name, AttemptOutcome(simulate, results[0]))
    requires EventsMatch(rest, targets[1..], simulate, results[1..])
    ensures EventsMatch([e] + rest, targets, simulate, results)
  {
    var ev := [e] + rest;
    forall i | 0 <= i < |targets|
      ensures ev[i] == Attempted(targets[i].name, AttemptOutcome(simulate, results[i]))
    {
      if i > 0 {
        assert ev[i] == rest[i - 1];
        assert targets[i] == targets[1..][i - 1] && results[i] == results[1..][i - 1];
      }
    }
  }

  /** Per label, a round adds one observation for every target carrying the
      label, none of its counters decreases, and a sound series stays sound. */
  lemma {:induction false} AttemptsPerLabel(reg: Registry, targets: seq<Target>, simulate: bool,
                                            results: seq<DriverResult>, l: string)
    requires |results| == |targets|
    ensures var after := Get(Attempts(reg, targets, simulate, results).0, l);
      && after.observed == Get(reg, l).observed + Occurrences(l, targets)
      && Grows(Get(reg, l), after)
      && (Sound(Get(reg, l)) ==> Sound(after))
    decreases |targets|
  {
    if targets != [] {
      var mid := WriteTimestamp(reg, targets[0], simulate, results[0]);
      AttemptsStep(reg, targets, simulate, results, l);
      WriteTimestampAt(reg, targets[0], simulate, results[0], l);
      AttemptsPerLabel(mid, targets[1..], simulate, results[1..], l);
    }
  }

  /** After a round, exactly the labels that were present or are carried by
      some target are present. */
  lemma {:induction false} AttemptsLabels(reg: Registry, targets: seq<Target>, simulate: bool,
                                          results: seq<DriverResult>, l: string)
    requires |results| == |targets|
    ensures l in Attempts(reg, targets, simulate, results).0 <==> l in reg || Occurrences(l, targets) > 0
    decreases |targets|
  {
    if targets != [] {
      var mid := WriteTimestamp(reg, targets[0], simulate, results[0]);
      AttemptsStep(reg, targets, simulate, results, l);
      WriteTimestampAt(reg, targets[0], simulate, results[0], l);
      AttemptsLabels(mid, targets[1..], simulate, results[1..], l);
    }
  }

  /** With the switch on, every attempt of every target is a timeout
      failure and no success counter moves. */
  lemma {:induction false} SimulatedAttempts(reg: Registry, targets: seq<Target>, results: seq<DriverResult>, l: string)
    requires |results| == |targets|
    ensures var a, b := Get(reg, l), Get(Attempts(reg, targets, true, results).0, l);
      && b.success == a.success
      && b.failure == a.failure + Occurrences(l, targets)
      && b.timeout == a.timeout + Occurrences(l, targets)
    decreases |targets|
  {
    if targets != [] {
      var mid := WriteTimestamp(reg, targets[0], true, results[0]);
      AttemptsStep(reg, targets, true, results, l);
      WriteTimestampAt(reg, targets[0], true, results[0], l);
      SimulatedAttempts(mid, targets[1..], results[1..], l);
    }
  }

  predicate AllDone(results: seq<DriverResult>) {
    forall i :: 0 <= i < |results| ==> results[i] == Done
  }

  /** With every driver call succeeding and the switch off, each label gains
      one success per target carrying it and no failure or timeout. */
  lemma {:induction false} HealthyAttempts(reg: Registry, targets: seq<Target>, results: seq<DriverResult>, l: string)
    requires |results| == |targets|
    requires AllDone(results)
    ensures var a, b := Get(reg, l), Get(Attempts(reg, targets, false, results).0, l);
      && b.success == a.success + Occurrences(l, targets)
      && b.failure == a.failure
      && b.timeout == a.timeout
    decreases |targets|
  {
    if targets != [] {
      assert results[0] == Done;
      assert AllDone(results[1..]) by {
        forall i | 0 <= i < |results[1..]|
          ensures results[1..][i] == Done
        {
          assert results[1..][i] == results[i + 1];
        }
      }
      var mid := WriteTimestamp(reg, targets[0], false, results[0]);
      AttemptsStep(reg, targets, false, results, l);
      WriteTimestampAt(reg, targets[0], false, results[0], l);
      HealthyAttempts(mid, targets[1..], results[1..], l);
    }
  }

  /** One pass of the writer thread: every target once, in
      configuration order, then one sleep of the configured interval. */
  function Round(reg: Registry, targets: seq<Target>, simulate: bool, results: seq<DriverResult>, interval: int)
    : (r: (Registry, seq<Event>))
    requires |results| == |targets|
    ensures |r.1| == |targets| + 1
    ensures r.1[|targets|] == Slept(interval)
    ensures r.0 == Attempts(reg, targets, simulate, results).0
    ensures r.1[..|targets|] == Attempts(reg, targets, simulate, results).1
  {
    var a := Attempts(reg, targets, simulate, results);
    (a.0, a.1 + [Slept(interval)])
  }

  /** `inc(0)` on every counter of every target, in order. */
  function Register(reg: Registry, targets: seq<Target>): Registry
    decreases |targets|
  {
    if targets == [] then reg else Register(Touch(reg, targets[0].name), targets[1..])
  }

  /** Registration adds exactly the configured labels and changes no
      reading. */
  lemma {:induction false} RegisterAt(reg: Registry, targets: seq<Target>, l: string)
    ensures l in Register(reg, targets) <==> l in reg || Occurrences(l, targets) > 0
    ensures Get(Register(reg, targets), l) == Get(reg, l)
    decreases |targets|
  {
    if targets != [] {
      TouchAt(reg, targets[0].name, l);
      RegisterAt(Touch(reg, targets[0].name), targets[1..], l);
    }
  }

  /** The registry before the first round: every label registered at zero. */
  function Startup(targets: seq<Target>): Registry {
    Register(map[], targets)
  }

  /** Before the first round, all three counters of every configured target
      exist, and no other label exists. */
  lemma StartupLabels(targets: seq<Target>, l: string)
    ensures l in Startup(targets) <==> Occurrences(l, targets) > 0
  {
    RegisterAt(map[], targets, l);
  }

  /** Before the first round, every label reads zero. */
  lemma StartupZero(targets: seq<Target>, l: string)
    ensures Get(Startup(targets), l) == Zero
  {
    RegisterAt(map[], targets, l);
  }

  lemma MulPeel(a: nat, b: nat)
    requires a > 0
    ensures a * b == b + (a - 1) * b
  {
  }

  /** `n` rounds of `k` attempts each, counted one round at a time. */
  function Times(n: nat, k: nat): nat {
    if n == 0 then 0 else k + Times(n - 1, k)
  }

  lemma {:induction false} TimesIsProduct(n: nat, k: nat)
    ensures Times(n, k) == n * k
  {
    if n > 0 {
      TimesIsProduct(n - 1, k);
      MulPeel(n, k);
    }
  }

  /** Every round supplies one driver result per target. */
  predicate RoundsFit(rounds: seq<seq<DriverResult>>, targets: seq<Target>) {
    forall k :: 0 <= k < |rounds| ==> |rounds[k]| == |targets|
  }

  /** `rounds` writer passes, each driven by its own results. */
  function Run(reg: Registry, targets: seq<Target>, simulate: bool, rounds: seq<seq<DriverResult>>, interval: int)
    : (r: (Registry, seq<Event>))
    requires RoundsFit(rounds, targets)
    decreases |rounds|
  {
    if rounds == [] then (reg, [])
    else
      var first := Round(reg, targets, simulate, rounds[0], interval);
      var rest := Run(first.0, targets, simulate, rounds[1..], interval);
      (rest.0, first.1 + rest.1)
  }

  /** Each round logs one event per target and one sleep. */
  lemma {:induction false} RunLength(reg: Registry, targets: seq<Target>, simulate: bool,
                                     rounds: seq<seq<DriverResult>>, interval: int)
    requires RoundsFit(rounds, targets)
    ensures |Run(reg, targets, simulate, rounds, interval).1| == |rounds| * (|targets| + 1)
    decreases |rounds|
  {
    if rounds != [] {
      var first := Round(reg, targets, simulate, rounds[0], interval);
      RunLength(first.0, targets, simulate, rounds[1..], interval);
      MulPeel(|rounds|, |targets| + 1);
    }
  }

  /** Per label over many rounds: one observation per round per target
      carrying the label, counters never decrease, soundness is kept. */
  lemma {:induction false} RunPerLabel(reg: Registry, targets: seq<Target>, simulate: bool,
                                       rounds: seq<seq<DriverResult>>, interval: int, l: string)
    requires RoundsFit(rounds, targets)
    ensures var after := Get(Run(reg, targets, simulate, rounds, interval).0, l);
      && after.observed == Get(reg, l).observed + Times(|rounds|, Occurrences(l, targets))
      && Grows(Get(reg, l), after)
      && (Sound(Get(reg, l)) ==> Sound(after))
    decreases |rounds|
  {
    if rounds != [] {
      var mid := Attempts(reg, targets, simulate, rounds[0]).0;
      AttemptsPerLabel(reg, targets, simulate, rounds[0], l);
      assert Run(reg, targets, simulate, rounds, interval).0 == Run(mid, targets, simulate, rounds[1..], interval).0;
      RunPerLabel(mid, targets, simulate, rounds[1..], interval, l);
    }
  }

  /** A series that starts at zero, gains `n` observations and keeps
      soundness ends sound with exactly `n` observations. */
  lemma FromZero(before: Tally, after: Tally, n: nat)
    requires before == Zero
    requires after.observed == before.observed + n
    requires Sound(before) ==> Sound(after)
    ensures Sound(after) && after.observed == n
  {
  }

  /** From start-up, every label, whatever happens to the others, keeps
      success + failure equal to its number of attempts and timeout at most
      failure. */
  lemma RunFromStartup(targets: seq<Target>, simulate: bool, rounds: seq<seq<DriverResult>>, interval: int, name: string)
    requires RoundsFit(rounds, targets)
    ensures var t := Get(Run(Startup(targets), targets, simulate, rounds, interval).0, name);
      Sound(t) && t.observed == |rounds| * Occurrences(name, targets)
  {
    var reg := Startup(targets);
    var after := Get(Run(reg, targets, simulate, rounds, interval).0, name);
    RunPerLabel(reg, targets, simulate, rounds, interval, name);
    var n := Times(|rounds|, Occurrences(name, targets));
    assert after.observed == Get(reg, name).observed + n;
    assert Sound(Get(reg, name)) ==> Sound(after);
    StartupZero(targets, name);
    FromZero(Get(reg, name), after, n);
    TimesIsProduct(|rounds|, Occurrences(name, targets));
  }

  /** With the switch on, over many rounds every attempt is a timeout
      failure: per label, failures and timeouts each gain one per round per
      target carrying the label, and successes none. */
  lemma {:induction false} RunSimulated(reg: Registry, targets: seq<Target>,
                                        rounds: seq<seq<DriverResult>>, interval: int, l: string)
    requires RoundsFit(rounds, targets)
    ensures var a, b := Get(reg, l), Get(Run(reg, targets, true, rounds, interval).0, l);
      && b.success == a.success
      && b.failure == a.failure + Times(|rounds|, Occurrences(l, targets))
      && b.timeout == a.timeout + Times(|rounds|, Occurrences(l, targets))
    decreases |rounds|
  {
    if rounds != [] {
      var mid := Attempts(reg, targets, true, rounds[0]).0;
      SimulatedAttempts(reg, targets, rounds[0], l);
      assert Run(reg, targets, true, rounds, interval).0 == Run(mid, targets, true, rounds[1..], interval).0;
      RunSimulated(mid, targets, rounds[1..], interval, l);
    }
  }

  /** `ev` is the log of `rounds`: for every round, its attempts in
      configuration order with the outcome each driver result amounts to,
      then one sleep of the interval. */
  predicate RoundsLog(ev: seq<Event>, targets: seq<Target>, simulate: bool,
                      rounds: seq<seq<DriverResult>>, interval: int)
    requires RoundsFit(rounds, targets)
    decreases |rounds|
  {
    if rounds == [] then ev == []
    else
      && |ev| >= |targets| + 1
      && EventsMatch(ev[..|targets|], targets, simulate, rounds[0])
      && ev[|targets|] == Slept(interval)
      && RoundsLog(ev[|targets| + 1..], targets, simulate, rounds[1..], interval)
  }

  /** The whole log of a run is its rounds' logs one after another. */
  lemma {:induction false} RunEvents(reg: Registry, targets: seq<Target>, simulate: bool,
                                     rounds: seq<seq<DriverResult>>, interval: int)
    requires RoundsFit(rounds, targets)
    ensures RoundsLog(Run(reg, targets, simulate, rounds, interval).1, targets, simulate, rounds, interval)
    decreases |rounds|
  {
    if rounds != [] {
      var first := Round(reg, targets, simulate, rounds[0], interval);
      var rest := Run(first.0, targets, simulate, rounds[1..], interval);
      RunEvents(first.0, targets, simulate, rounds[1..], interval);
      var ev := Run(reg, targets, simulate, rounds, interval).1;
      assert ev == first.1 + rest.1;
      assert ev[..|targets|] == first.1[..|targets|];
      assert ev[|targets|] == first.1[|targets|];
      assert ev[|targets| + 1..] == rest.1;
    }
  }

  /** The writer thread of the process: zero counters for every configured
      target, then the rounds, with the interval and the switch read at
      start-up. */
  function Process(st: Settings, rounds: seq<seq<DriverResult>>): (r: (Registry, seq<Event>))
    requires RoundsFit(rounds, st.targets)
    ensures |r.1| == |rounds| * (|st.targets| + 1)
    ensures RoundsLog(r.1, st.targets, st.simulate, rounds, st.interval)
  {
    RunEvents(Startup(st.targets), st.targets, st.simulate, rounds, st.interval);
    RunLength(Startup(st.targets), st.targets, st.simulate, rounds, st.interval);
    Run(Startup(st.targets), st.targets, st.simulate, rounds, st.interval)
  }

  /** After any number of rounds each label is sound and holds one attempt
      per round per target carrying it; with the switch on, none of them
      succeeded and every one is a timeout. */
  lemma ProcessSpec(st: Settings, rounds: seq<seq<DriverResult>>, name: string)
    requires RoundsFit(rounds, st.targets)
    ensures var t := Get(Process(st, rounds).0, name);
      && Sound(t)
      && t.observed == |rounds| * Occurrences(name, st.targets)
      && (st.simulate ==> t.success == 0 && t.failure == t.observed && t.timeout == t.observed)
  {
    RunFromStartup(st.targets, st.simulate, rounds, st.interval, name);
    if st.simulate {
      RunSimulated(Startup(st.targets), st.targets, rounds, st.interval, name);
      StartupZero(st.targets, name);
    }
  }
}
