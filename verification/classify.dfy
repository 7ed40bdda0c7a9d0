/** The outcome classifiers. Every driver call is replaced by a value saying
    how it ended; each variant maps that value to an Outcome by its own rule:
    the multi-target variant by exception category, initial/app1.py by two
    phrases in the lower-cased error text, and the two SQLite variants by two
    other phrases. The text rules are heuristics, and they disagree. */
module Classify {
  import opened Text
  import opened Metrics

  /** The exception categories the multi-target variant distinguishes. */
  datatype ErrorKind = OperationalError | OtherError

  /** One connect/execute/commit sequence as its caller sees it: it completed,
      or it raised an exception of some category whose text is `message`. */
  datatype DriverResult = Done | Raised(kind: ErrorKind, message: string)

  /** One SQLAlchemy call in initial/app1.py with its measured latency: it
      completed, raised a SQLAlchemyError/DBAPIError, or raised anything else. */
  datatype EngineCall =
    | Ok(latency: nat)
    | DriverError(message: string, latency: nat)
    | Unexpected(message: string, latency: nat)

  // ---------------------------------------------------------------------------
  // multidb-without-tracing: by category
  // ---------------------------------------------------------------------------

  /** An OperationalError is a timeout-like failure, any other exception a
      plain failure. */
  function MultiDbOutcome(r: DriverResult): (o: Outcome)
    ensures o == Succeeded <==> r == Done
    ensures o == Failed(true) <==> r.Raised? && r.kind == OperationalError
  {
    match r
    case Done => Succeeded
    case Raised(OperationalError, _) => Failed(true)
    case Raised(OtherError, _) => Failed(false)
  }

  // ---------------------------------------------------------------------------
  // initial/app1.py: "timed out" / "connection refused"
  // ---------------------------------------------------------------------------

  predicate IsTimedOutText(message: string) {
    var m := Lower(message);
    Contains(m, "timed out") || Contains(m, "connection refused")
  }

  /** A driver error is timeout-like when its text says so; an unexpected
      error never is, whatever its text. */
  function EngineOutcome(c: EngineCall): (o: Outcome)
    ensures o == Succeeded <==> c.Ok?
    ensures o == Failed(true) <==> c.DriverError? && IsTimedOutText(c.message)
  {
    match c
    case Ok(_) => Succeeded
    case DriverError(m, _) => Failed(IsTimedOutText(m))
    case Unexpected(_, _) => Failed(false)
  }

  // ---------------------------------------------------------------------------
  // without-tracing / with-tracing: "timeout" / "operationalerror"
  // ---------------------------------------------------------------------------

  predicate IsTimeoutText(message: string) {
    var m := Lower(message);
    Contains(m, "timeout") || Contains(m, "operationalerror")
  }

  /** Every exception is a failure; the category plays no part, only the text. */
  function SqliteOutcome(r: DriverResult): (o: Outcome)
    ensures o == Succeeded <==> r == Done
    ensures o == Failed(true) <==> r.Raised? && IsTimeoutText(r.message)
  {
    match r
    case Done => Succeeded
    case Raised(_, m) => Failed(IsTimeoutText(m))
  }

  /** Both text rules ignore letter case. */
  lemma TextRulesIgnoreCase(message: string)
    ensures IsTimedOutText(Upper(message)) == IsTimedOutText(message)
    ensures IsTimeoutText(Upper(message)) == IsTimeoutText(message)
  {
    LowerOfUpper(message);
  }

  /** The message the SQLite variants raise when simulating a failure. */
  const SimulatedMessage := "Simulated database connection error or timeout"

  /** A simulated failure always counts as a timeout in the SQLite variants. */
  lemma SimulatedMessageIsTimeout()
    ensures IsTimeoutText(SimulatedMessage)
  {
    LowerContains(SimulatedMessage, "timeout", 39);
  }

  const RefusedMessage := "connection refused"

  /** The two text heuristics disagree: a driver message "connection refused"
      is a timeout for initial/app1.py and a plain failure for the SQLite
      variants. */
  lemma TextRulesDisagree()
    ensures EngineOutcome(DriverError(RefusedMessage, 0)) == Failed(true)
    ensures SqliteOutcome(Raised(OperationalError, RefusedMessage)) == Failed(false)
  {
    RefusedFacts(RefusedMessage);
  }

  lemma RefusedFacts(s: string)
    requires s == RefusedMessage
    ensures Lower(s) == s
    ensures Contains(s, "connection refused")
    ensures !Contains(s, "timeout") && !Contains(s, "operationalerror")
  {
    RefusedIsLower(s);
    RefusedContainsItself(s);
    RefusedLacksTimeout(s);
    RefusedLacksOperational(s);
  }

  lemma RefusedIsLower(s: string)
    requires s == RefusedMessage
    ensures Lower(s) == s
  {
    LowerUnchanged(s);
  }

  lemma RefusedContainsItself(s: string)
    requires s == RefusedMessage
    ensures Contains(s, "connection refused")
  {
    StartsWithSelf(s);
    ContainsAt(s, s, 0);
  }

  lemma RefusedLacksTimeout(s: string)
    requires s == RefusedMessage
    ensures !Contains(s, "timeout")
  {
    AbsentChar(s, "timeout", 'm');
  }

  lemma RefusedLacksOperational(s: string)
    requires s == RefusedMessage
    ensures !Contains(s, "operationalerror")
  {
    AbsentChar(s, "operationalerror", 'p');
  }

  lemma StartsWithSelf(s: string)
    ensures StartsWith(s[0..], s)
  {
    assert s[0..][..|s|] == s;
  }

  /** A needle holding a character the text lacks does not occur in it. */
  lemma {:induction false} AbsentChar(s: string, needle: string, c: char)
    requires c in needle && c !in s
    ensures !Contains(s, needle)
    decreases |s|
  {
    if |s| > 0 {
      AbsentChar(s[1..], needle, c);
    }
  }

  /** Lower-casing finds `needle` where the lower-cased characters spell it. */
  lemma LowerContains(s: string, needle: string, i: nat)
    requires i + |needle| <= |s|
    requires forall j :: 0 <= j < |needle| ==> LowerChar(s[i + j]) == needle[j]
    ensures Contains(Lower(s), needle)
  {
    var m := Lower(s);
    assert m[i..][..|needle|] == needle;
    ContainsAt(m, needle, i);
  }

  /** Text without upper-case letters is its own lower-case form. */
  lemma LowerUnchanged(s: string)
    requires forall i :: 0 <= i < |s| ==> !('A' <= s[i] <= 'Z')
    ensures Lower(s) == s
  {
  }
}
