/** The process environment as the variants read it, and the two settings
    every variant derives from it in the same way: the write interval and the
    failure-simulation switch. */
module Env {
  import opened Results
  import opened Text

  type Environment = map<string, string>

  /** Looking a variable up: None when it is unset. A variable set to the
      empty string is present. */
  function Getenv(env: Environment, key: string): Option<string> {
    if key in env then Some(env[key]) else None
  }

  /** Looking a variable up with a default: the default only replaces an unset variable,
      never an empty one. */
  function GetenvOr(env: Environment, key: string, default: string): string {
    Getenv(env, key).GetOr(default)
  }

  const IntervalVar := "DB_WRITE_INTERVAL_SECONDS"
  const DefaultInterval := 5

  /** The write interval: the integer DB_WRITE_INTERVAL_SECONDS spells, or 5
      seconds when it is unset or spells no integer. An unparsable value is
      not a configuration failure. Zero and negative values are accepted as
      they are. */
  function WriteInterval(env: Environment): (r: int)
    ensures r == DefaultInterval || (IntervalVar in env && ParseInt(env[IntervalVar]) == Some(r))
    ensures IntervalVar in env && ParseInt(env[IntervalVar]).Some? ==> Some(r) == ParseInt(env[IntervalVar])
    ensures IntervalVar !in env || ParseInt(env[IntervalVar]) == None ==> r == DefaultInterval
  {
    if IntervalVar !in env then DefaultInterval
    else
      match ParseInt(env[IntervalVar])
      case Some(n) => n
      case None => DefaultInterval
  }

  /** The interval is exactly the integer the variable spells. */
  lemma IntervalRoundTrip(env: Environment, n: int)
    ensures WriteInterval(env[IntervalVar := Show(n)]) == n
  {
    ParseShow(n);
  }

  const SimulateVar := "SIMULATE_DB_FAILURE"

  /** The failure-simulation switch is on exactly when the variable is set
      and reads "true" in any mix of upper and lower case. */
  function SimulateFlag(env: Environment): (r: bool)
    ensures r ==> SimulateVar in env && |env[SimulateVar]| == 4
    ensures r <==> SimulateVar in env && Lower(env[SimulateVar]) == "true"
  {
    Lower(GetenvOr(env, SimulateVar, "false")) == "true"
  }

  /** The switch ignores letter case: "TRUE", "True" and "true" all turn it
      on, and an unset variable leaves it off. */
  lemma SimulateFlagCaseInsensitive(env: Environment, v: string)
    ensures SimulateFlag(env[SimulateVar := Upper(v)]) == SimulateFlag(env[SimulateVar := v])
    ensures SimulateFlag(env[SimulateVar := "true"]) && SimulateFlag(env[SimulateVar := "TRUE"])
    ensures SimulateVar !in env ==> !SimulateFlag(env)
  {
    LowerOfUpper(v);
  }
}
