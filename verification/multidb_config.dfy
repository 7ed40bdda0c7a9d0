/** Start-up configuration of the multi-target writer
    (multidb-without-tracing/app.py): the list of database targets read from
    DATABASE_NAMES and the per-target variables, or the configuration error
    that makes the process exit with status 1 before serving anything. */
module MultiDbConfig {
  import opened Results
  import opened Text
  import opened Env

  /** One logical database. `name` is the metric label and keeps the spelling
      given in DATABASE_NAMES; the port stays a string, as read. */
  datatype Target = Target(name: string, host: string, port: string, user: string,
                           password: string, dbname: string)

  datatype ConfigError =
    | NamesNotSet                    // DATABASE_NAMES unset or the empty string
    | NoNames                        // DATABASE_NAMES holds only blanks and commas
    | MissingRequired(name: string)  // the first target without host or password

  const NamesVar := "DATABASE_NAMES"
  const DefaultPort := "5432"
  const DefaultUser := "k8sadmin"
  const DefaultDbName := "timestamp"

  // ---------------------------------------------------------------------------
  // DATABASE_NAMES
  // ---------------------------------------------------------------------------

  /** A usable target name: not blank, no whitespace at either end. */
  predicate IsName(s: string) {
    s != [] && IsStripped(s)
  }

  /** Each piece stripped, blank pieces dropped, order kept. */
  function CleanNames(pieces: seq<string>): (r: seq<string>)
    ensures |r| <= |pieces|
  {
    if pieces == [] then []
    else
      var n := Strip(pieces[0]);
      var rest := CleanNames(pieces[1..]);
      if n == [] then rest else [n] + rest
  }

  /** Every cleaned name is usable. */
  lemma {:induction false} CleanNamesAreNames(pieces: seq<string>)
    ensures AllNames(CleanNames(pieces))
    decreases |pieces|
  {
    if pieces != [] {
      CleanNamesAreNames(pieces[1..]);
      var n := Strip(pieces[0]);
      if n != [] {
        ConsNames(n, CleanNames(pieces[1..]));
      }
    }
  }

  predicate AllNames(names: seq<string>) {
    forall i :: 0 <= i < |names| ==> IsName(names[i])
  }

  lemma ConsNames(n: string, rest: seq<string>)
    requires IsName(n) && AllNames(rest)
    ensures AllNames([n] + rest)
  {
    var r := [n] + rest;
    forall i | 0 <= i < |r|
      ensures IsName(r[i])
    {
      if i > 0 { assert r[i] == rest[i - 1]; }
    }
  }

  /** Cleaning adds no character: one no piece holds, no name holds. */
  lemma {:induction false} CleanNamesLacks(pieces: seq<string>, c: char)
    requires Lacks(pieces, c)
    ensures Lacks(CleanNames(pieces), c)
    decreases |pieces|
  {
    if pieces != [] {
      assert c !in pieces[0];
      assert Lacks(pieces[1..], c) by {
        forall j | 0 <= j < |pieces[1..]|
          ensures c !in pieces[1..][j]
        {
          assert pieces[1..][j] == pieces[j + 1];
        }
      }
      CleanNamesLacks(pieces[1..], c);
      var n := Strip(pieces[0]);
      var rest := CleanNames(pieces[1..]);
      if n != [] {
        StripLacks(pieces[0], c);
        var r := [n] + rest;
        assert CleanNames(pieces) == r;
        forall j | 0 <= j < |r|
          ensures c !in r[j]
        {
          if j > 0 { assert r[j] == rest[j - 1]; }
        }
      }
    }
  }

  /** No string of `ss` holds `c`. */
  predicate Lacks(ss: seq<string>, c: char) {
    forall j :: 0 <= j < |ss| ==> c !in ss[j]
  }

  predicate AllBlank(pieces: seq<string>) {
    forall i :: 0 <= i < |pieces| ==> AllSpace(pieces[i])
  }

  /** Nothing survives the cleaning exactly when every piece is blank. */
  lemma {:induction false} CleanNamesEmpty(pieces: seq<string>)
    ensures CleanNames(pieces) == [] <==> AllBlank(pieces)
    decreases |pieces|
  {
    if pieces != [] {
      CleanNamesEmpty(pieces[1..]);
      assert forall j :: 0 <= j < |pieces[1..]| ==> pieces[1..][j] == pieces[j + 1];
      if AllBlank(pieces[1..]) && AllSpace(pieces[0]) {
        assert AllBlank(pieces) by {
          forall i | 0 <= i < |pieces|
            ensures AllSpace(pieces[i])
          {
            if i > 0 { assert pieces[i] == pieces[1..][i - 1]; }
          }
        }
      }
    }
  }

  /** The names of DATABASE_NAMES: the variable cut at every comma, each
      piece stripped of surrounding whitespace, blank pieces dropped, order
      kept. */
  function ParseNames(s: string): (r: seq<string>)
    ensures AllNames(r) && Lacks(r, ',')
  {
    var pieces := Split(s, ',');
    assert Lacks(pieces, ',');
    CleanNamesLacks(pieces, ',');
    CleanNamesAreNames(pieces);
    CleanNames(pieces)
  }

  predicate BlanksAndCommas(s: string) {
    forall i :: 0 <= i < |s| ==> s[i] == ',' || IsSpace(s[i])
  }

  /** The pieces of `s` are all blank exactly when `s` has nothing but blanks
      and commas. */
  lemma {:induction false} SplitAllBlank(s: string)
    ensures AllBlank(Split(s, ',')) <==> BlanksAndCommas(s)
    decreases |s|
  {
    if s != [] {
      SplitAllBlank(s[1..]);
      BlanksAndCommasCons(s);
      var rest := Split(s[1..], ',');
      if s[0] == ',' {
        assert Split(s, ',') == [[]] + rest;
        AllBlankCons([], rest);
      } else {
        assert Split(s, ',') == [[s[0]] + rest[0]] + rest[1..];
        AllBlankCons([s[0]] + rest[0], rest[1..]);
        AllSpaceCons(s[0], rest[0]);
        assert rest == [rest[0]] + rest[1..];
        AllBlankCons(rest[0], rest[1..]);
      }
    }
  }

  lemma BlanksAndCommasCons(s: string)
    requires s != []
    ensures BlanksAndCommas(s) <==> (s[0] == ',' || IsSpace(s[0])) && BlanksAndCommas(s[1..])
  {
    if (s[0] == ',' || IsSpace(s[0])) && BlanksAndCommas(s[1..]) {
      forall i | 0 <= i < |s|
        ensures s[i] == ',' || IsSpace(s[i])
      {
        if i > 0 { assert s[i] == s[1..][i - 1]; }
      }
    }
  }

  lemma AllBlankCons(p: string, ps: seq<string>)
    ensures AllBlank([p] + ps) <==> AllSpace(p) && AllBlank(ps)
  {
    var all := [p] + ps;
    assert all[0] == p;
    if AllSpace(p) && AllBlank(ps) {
      forall i | 0 <= i < |all|
        ensures AllSpace(all[i])
      {
        if i > 0 { assert all[i] == ps[i - 1]; }
      }
    }
    if AllBlank(all) {
      forall i | 0 <= i < |ps|
        ensures AllSpace(ps[i])
      {
        assert ps[i] == all[i + 1];
      }
    }
  }

  lemma AllSpaceCons(c: char, p: string)
    ensures AllSpace([c] + p) <==> IsSpace(c) && AllSpace(p)
  {
    var all := [c] + p;
    assert all[0] == c;
    if IsSpace(c) && AllSpace(p) {
      forall i | 0 <= i < |all|
        ensures IsSpace(all[i])
      {
        if i > 0 { assert all[i] == p[i - 1]; }
      }
    }
    if AllSpace(all) {
      forall i | 0 <= i < |p|
        ensures IsSpace(p[i])
      {
        assert p[i] == all[i + 1];
      }
    }
  }

  /** DATABASE_NAMES yields no name exactly when it is made of blanks and
      commas only (for example "", " ", " , ,"). */
  lemma ParseNamesEmpty(s: string)
    ensures ParseNames(s) == [] <==> BlanksAndCommas(s)
  {
    CleanNamesEmpty(Split(s, ','));
    SplitAllBlank(s);
  }

  /** The names come back in order from their comma-joined list. */
  lemma {:induction false} ParseNamesJoin(names: seq<string>)
    requires |names| >= 1
    requires AllNames(names) && Lacks(names, ',')
    ensures ParseNames(Join(names, ',')) == names
  {
    SplitJoin(names, ',');
    CleanStripped(names);
  }

  /** Pieces joined with commas come back as those pieces, stripped, with the
      blank ones dropped: the names are exactly the cleaned pieces. */
  lemma ParseNamesOfJoin(pieces: seq<string>)
    requires Lacks(pieces, ',')
    ensures ParseNames(Join(pieces, ',')) == CleanNames(pieces)
  {
    if pieces == [] {
      assert Split(Join(pieces, ','), ',') == [[]];
      assert Strip([]) == [];
      assert CleanNames([[]]) == [];
    } else {
      SplitJoin(pieces, ',');
    }
  }

  lemma {:induction false} CleanStripped(names: seq<string>)
    requires AllNames(names)
    ensures CleanNames(names) == names
    decreases |names|
  {
    if names != [] {
      StripStripped(names[0]);
      CleanStripped(names[1..]);
      assert names == [names[0]] + names[1..];
    }
  }

  // ---------------------------------------------------------------------------
  // Per-target variables
  // ---------------------------------------------------------------------------

  /** The variable `<NAME>_<suffix>` consulted for a target: the prefix is the
      upper-cased name. */
  function VarName(name: string, suffix: string): string {
    Upper(name) + suffix
  }

  /** A looked-up variable counts as given when it is set and non-empty. */
  predicate Truthy(v: Option<string>) {
    v.Some? && v.value != []
  }

  /** Host and password are mandatory for a target. */
  predicate HasRequired(env: Environment, name: string) {
    Truthy(Getenv(env, VarName(name, "_DB_HOST"))) && Truthy(Getenv(env, VarName(name, "_DB_PASSWORD")))
  }

  /** What an accepted target holds, stated variable by variable. */
  predicate Describes(env: Environment, name: string, t: Target) {
    var host := VarName(name, "_DB_HOST");
    var password := VarName(name, "_DB_PASSWORD");
    var port := VarName(name, "_DB_PORT");
    var user := VarName(name, "_DB_USER");
    var dbname := VarName(name, "_DB_DBNAME");
    && t.name == name
    && host in env && t.host == env[host] && t.host != []
    && password in env && t.password == env[password] && t.password != []
    && (if port in env then t.port == env[port] else t.port == DefaultPort)
    && (if user in env then t.user == env[user] else t.user == DefaultUser)
    && (if dbname in env then t.dbname == env[dbname] else t.dbname == DefaultDbName)
  }

  /** The configuration dictionary of one name, if its mandatory values are
      present. */
  function TargetFor(env: Environment, name: string): (r: Option<Target>)
    ensures r.Some? <==> HasRequired(env, name)
    ensures r.Some? ==> Describes(env, name, r.value)
  {
    if HasRequired(env, name) then
      Some(Target(name,
                  env[VarName(name, "_DB_HOST")],
                  GetenvOr(env, VarName(name, "_DB_PORT"), DefaultPort),
                  GetenvOr(env, VarName(name, "_DB_USER"), DefaultUser),
                  env[VarName(name, "_DB_PASSWORD")],
                  GetenvOr(env, VarName(name, "_DB_DBNAME"), DefaultDbName)))
    else None
  }

  /** `names[i]` is the first name lacking host or password. */
  predicate FirstMissingAt(env: Environment, names: seq<string>, i: int) {
    0 <= i < |names| && !HasRequired(env, names[i])
    && forall j :: 0 <= j < i ==> HasRequired(env, names[j])
  }

  /** Every name has its host and password. */
  predicate AllRequired(env: Environment, names: seq<string>) {
    forall i :: 0 <= i < |names| ==> HasRequired(env, names[i])
  }

  /** `ts` holds one target per name, in order, each built from its name's
      variables. */
  predicate AllDescribe(env: Environment, names: seq<string>, ts: seq<Target>) {
    |ts| == |names| && forall i :: 0 <= i < |names| ==> Describes(env, names[i], ts[i])
  }

  /** The targets in name order, or the error naming the first
      name whose host or password is unset or empty. */
  function BuildTargets(env: Environment, names: seq<string>): (r: Result<seq<Target>, ConfigError>)
    ensures r.Ok? ==> |r.value| == |names|
    ensures r.Err? ==> r.error.MissingRequired?
    decreases |names|
  {
    if names == [] then Ok([])
    else
      match TargetFor(env, names[0])
      case None => Err(MissingRequired(names[0]))
      case Some(t) =>
        match BuildTargets(env, names[1..])
        case Ok(ts) => Ok([t] + ts)
        case Err(e) => Err(e)
  }

  /** The target list is built exactly when every name has its host and
      password; it then describes every name in order, and otherwise the
      error names the first name lacking one. */
  lemma {:induction false} BuildTargetsSpec(env: Environment, names: seq<string>)
    ensures var r := BuildTargets(env, names);
      && (r.Ok? <==> AllRequired(env, names))
      && (r.Ok? ==> AllDescribe(env, names, r.value))
      && (r.Err? ==> exists i :: FirstMissingAt(env, names, i) && names[i] == r.error.name)
    decreases |names|
  {
    if names != [] {
      BuildTargetsSpec(env, names[1..]);
      match TargetFor(env, names[0])
      case None =>
        assert FirstMissingAt(env, names, 0);
      case Some(t) =>
        match BuildTargets(env, names[1..])
        case Ok(ts) =>
          ConsDescribe(env, names, t, ts);
        case Err(e) =>
          ConsMissing(env, names, e.name);
    }
  }

  /** A target for the first name followed by targets for the rest describes
      all of them. */
  lemma ConsDescribe(env: Environment, names: seq<string>, t: Target, ts: seq<Target>)
    requires names != []
    requires Describes(env, names[0], t) && HasRequired(env, names[0])
    requires AllRequired(env, names[1..]) && AllDescribe(env, names[1..], ts)
    ensures AllRequired(env, names) && AllDescribe(env, names, [t] + ts)
  {
    var r := [t] + ts;
    forall i | 1 <= i < |names|
      ensures HasRequired(env, names[i]) && Describes(env, names[i], r[i])
    {
      assert r[i] == ts[i - 1] && names[i] == names[1..][i - 1];
    }
  }

  /** A first missing name among the rest, after a first name that has its
      host and password, is the first missing name of all. */
  lemma ConsMissing(env: Environment, names: seq<string>, missing: string)
    requires names != [] && HasRequired(env, names[0])
    requires exists k :: FirstMissingAt(env, names[1..], k) && names[1..][k] == missing
    ensures !AllRequired(env, names)
    ensures exists i :: FirstMissingAt(env, names, i) && names[i] == missing
  {
    var k :| FirstMissingAt(env, names[1..], k) && names[1..][k] == missing;
    assert names[k + 1] == names[1..][k];
    forall j | 0 <= j < k + 1
      ensures HasRequired(env, names[j])
    {
      if j > 0 {
        assert names[j] == names[1..][j - 1];
      }
    }
    assert FirstMissingAt(env, names, k + 1);
  }

  /** The target list, or the configuration error that ends the
      process. */
  function LoadTargets(env: Environment): (r: Result<seq<Target>, ConfigError>)
    ensures NamesVar !in env || env[NamesVar] == [] ==> r == Err(NamesNotSet)
    ensures r == Err(NoNames) <==> NamesVar in env && env[NamesVar] != [] && BlanksAndCommas(env[NamesVar])
    ensures r.Ok? ==> |r.value| >= 1
  {
    if NamesVar !in env || env[NamesVar] == [] then Err(NamesNotSet)
    else
      var names := ParseNames(env[NamesVar]);
      ParseNamesEmpty(env[NamesVar]);
      if names == [] then Err(NoNames)
      else BuildTargets(env, names)
  }

  /** A successful load lists one target per name of DATABASE_NAMES, in order,
      each built from its own upper-cased variables. */
  lemma LoadTargetsOk(env: Environment)
    requires LoadTargets(env).Ok?
    ensures NamesVar in env
    ensures var names := ParseNames(env[NamesVar]);
      && |LoadTargets(env).value| == |names|
      && forall i :: 0 <= i < |names| ==> Describes(env, names[i], LoadTargets(env).value[i])
    ensures forall t :: t in LoadTargets(env).value ==> t.host != [] && t.password != []
  {
    var names := ParseNames(env[NamesVar]);
    BuildTargetsSpec(env, names);
  }

  /** The configuration is refused exactly when some name lacks a host or a
      password, and the error names the first such name. */
  lemma LoadTargetsMissing(env: Environment)
    requires NamesVar in env && !BlanksAndCommas(env[NamesVar])
    ensures var names := ParseNames(env[NamesVar]);
      && (LoadTargets(env).Ok? <==> forall i :: 0 <= i < |names| ==> HasRequired(env, names[i]))
      && (LoadTargets(env).Err? ==> exists i :: FirstMissingAt(env, names, i)
                                        && LoadTargets(env).error == MissingRequired(names[i]))
  {
    ParseNamesEmpty(env[NamesVar]);
    BuildTargetsSpec(env, ParseNames(env[NamesVar]));
  }

  /** Everything the process reads at start-up. The failure-simulation
      switch is re-read on every write in the program; the environment does
      not change while the process runs, so reading it once is the same. */
  datatype Settings = Settings(targets: seq<Target>, interval: int, simulate: bool)

  /** The target list, the write interval and the simulation switch; only
      the target list can fail. */
  function LoadSettings(env: Environment): (r: Result<Settings, ConfigError>)
    ensures r.Ok? <==> LoadTargets(env).Ok?
    ensures r.Err? ==> r.error == LoadTargets(env).error
    ensures r.Ok? ==> r.value.targets == LoadTargets(env).value
    ensures r.Ok? ==> r.value.interval == WriteInterval(env)
    ensures r.Ok? ==> r.value.simulate == SimulateFlag(env)
  {
    match LoadTargets(env)
    case Ok(ts) => Ok(Settings(ts, WriteInterval(env), SimulateFlag(env)))
    case Err(e) => Err(e)
  }
}
