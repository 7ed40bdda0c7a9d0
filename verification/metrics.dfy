/** The metric state the variants keep. Counters only ever grow; histograms are
    kept as observation counts (bucket placement belongs to the metrics
    library), and latencies are opaque numbers handed in by the caller. */
module Metrics {

  /** What one attempt amounted to. A timeout-like failure is still a failure;
      it is additionally counted as a timeout. */
  datatype Outcome = Succeeded | Failed(timeout: bool)

  // ---------------------------------------------------------------------------
  // Success / failure / timeout counters plus a latency histogram
  // (multidb-without-tracing, without-tracing, with-tracing)
  // ---------------------------------------------------------------------------

  /** The three counters of one label and the number of latency observations
      of its histogram. Every attempt is timed, so `observed` is the number of
      attempts. */
  datatype Tally = Tally(success: nat, failure: nat, timeout: nat, observed: nat)

  const Zero := Tally(0, 0, 0, 0)

  /** Every attempt is a success or a failure, and timeouts are failures. */
  predicate Sound(t: Tally) {
    t.success + t.failure == t.observed && t.timeout <= t.failure
  }

  /** No counter of `b` is below the same counter of `a`. */
  predicate Grows(a: Tally, b: Tally) {
    a.success <= b.success && a.failure <= b.failure && a.timeout <= b.timeout
    && a.observed <= b.observed
  }

  /** One timed attempt with outcome `o` is recorded. */
  function Record(t: Tally, o: Outcome): (r: Tally)
    ensures Sound(t) ==> Sound(r)
    ensures Grows(t, r)
    ensures r.observed == t.observed + 1
    ensures r.success + r.failure == t.success + t.failure + 1
    ensures r.success > t.success <==> o == Succeeded
    ensures r.timeout > t.timeout <==> o == Failed(true)
    ensures r.success == t.success + (if o == Succeeded then 1 else 0)
    ensures r.failure == t.failure + (if o == Succeeded then 0 else 1)
    ensures r.timeout == t.timeout + (if o == Failed(true) then 1 else 0)
  {
    match o
    case Succeeded => t.(success := t.success + 1, observed := t.observed + 1)
    case Failed(isTimeout) =>
      t.(failure := t.failure + 1,
         timeout := if isTimeout then t.timeout + 1 else t.timeout,
         observed := t.observed + 1)
  }

  /** Counters keyed by a label (the `database_name` label of the multi-target
      variant). A label appears once any of its series has been touched. */
  type Registry = map<string, Tally>

  /** The series of a label; an untouched label reads as all zero. */
  function Get(reg: Registry, name: string): Tally {
    if name in reg then reg[name] else Zero
  }

  /** `inc(0)` on all three counters of a label: creates zero series for a new
      label and leaves an existing one untouched. */
  function Touch(reg: Registry, name: string): (r: Registry)
    ensures name in r
    ensures Get(r, name) == Get(reg, name)
  {
    if name in reg then reg else reg[name := Zero]
  }

  /** Touching adds at most its own label and changes no reading. */
  lemma TouchAt(reg: Registry, name: string, l: string)
    ensures l in Touch(reg, name) <==> l in reg || l == name
    ensures Get(Touch(reg, name), l) == Get(reg, l)
  {
  }

  /** One attempt for `name` is recorded in its series. */
  function Bump(reg: Registry, name: string, o: Outcome): (r: Registry)
    ensures name in r
    ensures Get(r, name) == Record(Get(reg, name), o)
  {
    reg[name := Record(Get(reg, name), o)]
  }

  /** Recording for one label adds at most that label and leaves every other
      label's series as it was. */
  lemma BumpAt(reg: Registry, name: string, o: Outcome, l: string)
    ensures l in Bump(reg, name, o) <==> l in reg || l == name
    ensures l != name ==> Get(Bump(reg, name, o), l) == Get(reg, l)
  {
  }

  // ---------------------------------------------------------------------------
  // Counters labelled by (status, is_timeout), a last-latency gauge labelled by
  // status, and a histogram (initial/app1.py, for connects and for writes)
  // ---------------------------------------------------------------------------

  /** The label pair an outcome is counted under. */
  function Labels(o: Outcome): (r: (string, string))
    ensures r.0 == "success" <==> o == Succeeded
    ensures r.1 == "true" <==> o == Failed(true)
  {
    match o
    case Succeeded => ("success", "false")
    case Failed(t) => ("failure", if t then "true" else "false")
  }

  /** Distinct outcomes are counted under distinct label pairs, so the counter
      family has exactly three series. */
  lemma LabelsInjective(a: Outcome, b: Outcome)
    requires Labels(a) == Labels(b)
    ensures a == b
  {
  }

  /** `counts` is the attempts counter by outcome, `observed` the histogram's
      observation count, `last` the last-latency gauge keyed by "was it a
      success". */
  datatype Series = Series(counts: map<Outcome, nat>, observed: nat, last: map<bool, nat>)

  const EmptySeries := Series(map[], 0, map[])

  function CountOf(m: Series, o: Outcome): nat {
    if o in m.counts then m.counts[o] else 0
  }

  function TotalOf(m: Series): nat {
    CountOf(m, Succeeded) + CountOf(m, Failed(true)) + CountOf(m, Failed(false))
  }

  /** One counter increment and one histogram observation per attempt. */
  predicate SeriesSound(m: Series) {
    TotalOf(m) == m.observed
  }

  /** From `m` to `r` exactly the counter of outcome `o` rose, by one. */
  ghost predicate CountedOnce(m: Series, r: Series, o: Outcome) {
    forall l :: CountOf(r, l) == CountOf(m, l) + (if l == o then 1 else 0)
  }

  /** One timed attempt with outcome `o` and latency `latency`: exactly one
      counter rises by one, one observation is added, and the gauge of the
      attempt's status holds its latency. */
  function Observe(m: Series, o: Outcome, latency: nat): (r: Series)
    ensures CountedOnce(m, r, o)
    ensures r.observed == m.observed + 1
    ensures SeriesSound(m) ==> SeriesSound(r)
    ensures o.Succeeded? in r.last && r.last[o.Succeeded?] == latency
    ensures !o.Succeeded? in m.last ==> !o.Succeeded? in r.last && r.last[!o.Succeeded?] == m.last[!o.Succeeded?]
    ensures r.last.Keys == m.last.Keys + {o.Succeeded?}
  {
    Series(m.counts[o := CountOf(m, o) + 1], m.observed + 1, m.last[o.Succeeded? := latency])
  }

  // ---------------------------------------------------------------------------
  // What a writer loop does, in order
  // ---------------------------------------------------------------------------

  datatype Event = Attempted(target: string, outcome: Outcome) | Slept(seconds: int)
}
