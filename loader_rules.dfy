/**
 * The branch-only rules inside the binding's `create` and `trackEvent`
 * entry points: how a log-level keyword and an environment name are read,
 * when the app secret is applied, and when revenue is attached to an event.
 */
module LoaderRules {
  import opened Optional
  import opened Casing
  import opened Vendor

  /** The keyword that selects each log level. */
  function LogLevelName(l: LogLevel): string
  {
    match l
    case Verbose => "verbose"
    case Debug => "debug"
    case Info => "info"
    case Warn => "warn"
    case Error => "error"
    case Assert => "assert"
    case Suppress => "suppress"
  }

  /**
   * The level passed to `setLogLevel`, or `None` when the table has no
   * `logLevel` field and no level is set. A keyword is recognised whatever
   * its case; any other text falls back to INFO.
   */
  function LogLevelFor(logLevel: Option<string>): (r: Option<LogLevel>)
    ensures r.None? <==> logLevel.None?
    ensures logLevel.Some? ==> r.value == Info || Lower(logLevel.value) == LogLevelName(r.value)
    ensures forall l :: logLevel.Some? && Lower(logLevel.value) == LogLevelName(l) ==> r == Some(l)
  {
    match logLevel
    case None => None
    case Some(s) =>
      var k := Lower(s);
      if k == "verbose" then Some(Verbose)
      else if k == "debug" then Some(Debug)
      else if k == "info" then Some(Info)
      else if k == "warn" then Some(Warn)
      else if k == "error" then Some(Error)
      else if k == "assert" then Some(Assert)
      else if k == "suppress" then Some(Suppress)
      else Some(Info)
  }

  /** The `isLogLevelSuppress` argument of the `AdjustConfig` constructor. */
  function SuppressFlag(logLevel: Option<string>): bool
  {
    logLevel.Some? && Lower(logLevel.value) == "suppress"
  }

  /** The constructor flag is raised exactly when the level chosen is SUPPRESS. */
  lemma SuppressFlagMatchesLevel(logLevel: Option<string>)
    ensures SuppressFlag(logLevel) <==> LogLevelFor(logLevel) == Some(Suppress)
  {
  }

  /** Every level is selected by its own keyword, written in lower or upper case. */
  lemma LogLevelRoundTrip(l: LogLevel)
    ensures LogLevelFor(Some(LogLevelName(l))) == Some(l)
    ensures LogLevelFor(Some(Upper(LogLevelName(l)))) == Some(l)
  {
    var name := LogLevelName(l);
    assert NoUpper(name);
    LowerOfNoUpper(name);
    LowerOfUpper(name);
  }

  /** Lower-casing the keyword first does not change the level chosen. */
  lemma LogLevelCaseInsensitive(s: string)
    ensures LogLevelFor(Some(Lower(s))) == LogLevelFor(Some(s))
  {
    LowerIdempotent(s);
  }

  /** The environment given to `AdjustConfig`. */
  function EnvironmentFor(environment: string): (r: Environment)
    ensures r == Sandbox <==> Lower(environment) == "sandbox"
    ensures r == Production <==> Lower(environment) == "production"
    ensures r.Custom? ==> r.name == environment
  {
    var k := Lower(environment);
    if k == "sandbox" then Sandbox
    else if k == "production" then Production
    else Custom(environment)
  }

  /** Lower-casing the name first does not change which constant is chosen; other names keep their own spelling. */
  lemma EnvironmentCaseInsensitive(environment: string)
    ensures EnvironmentFor(Lower(environment)).Custom? == EnvironmentFor(environment).Custom?
    ensures !EnvironmentFor(environment).Custom? ==> EnvironmentFor(Lower(environment)) == EnvironmentFor(environment)
  {
    LowerIdempotent(environment);
  }

  /** The two constants are recognised when written in upper case. */
  lemma EnvironmentUpperCase()
    ensures EnvironmentFor(Upper("sandbox")) == Sandbox
    ensures EnvironmentFor(Upper("production")) == Production
  {
    var sandbox, production := "sandbox", "production";
    assert NoUpper(sandbox);
    assert NoUpper(production);
    LowerOfUpper(sandbox);
    LowerOfUpper(production);
  }

  /** The sentinel each secret part starts from. */
  const SecretUnset: int := -1

  /** A secret part that is missing from the table or explicitly equal to the sentinel. */
  predicate IsUnsetPart(part: Option<int>)
  {
    part.None? || part.value == SecretUnset
  }

  /**
   * The secret passed to `setAppSecret`, or `None` when it is not called.
   * Missing parts are sent as the sentinel.
   */
  function AppSecretFor(secretId: Option<int>, info1: Option<int>, info2: Option<int>,
                        info3: Option<int>, info4: Option<int>): (r: Option<AppSecret>)
    ensures r.None? <==>
      IsUnsetPart(secretId) && IsUnsetPart(info1) && IsUnsetPart(info2) &&
      IsUnsetPart(info3) && IsUnsetPart(info4)
    ensures r.Some? ==>
      && (secretId.Some? ==> r.value.secretId == secretId.value)
      && (secretId.None? ==> r.value.secretId == SecretUnset)
      && (info1.Some? ==> r.value.info1 == info1.value) && (info1.None? ==> r.value.info1 == SecretUnset)
      && (info2.Some? ==> r.value.info2 == info2.value) && (info2.None? ==> r.value.info2 == SecretUnset)
      && (info3.Some? ==> r.value.info3 == info3.value) && (info3.None? ==> r.value.info3 == SecretUnset)
      && (info4.Some? ==> r.value.info4 == info4.value) && (info4.None? ==> r.value.info4 == SecretUnset)
  {
    var s := AppSecret(GetOr(secretId, SecretUnset), GetOr(info1, SecretUnset), GetOr(info2, SecretUnset),
                       GetOr(info3, SecretUnset), GetOr(info4, SecretUnset));
    if s.secretId != SecretUnset || s.info1 != SecretUnset || s.info2 != SecretUnset
       || s.info3 != SecretUnset || s.info4 != SecretUnset
    then Some(s)
    else None
  }

  /** The sentinel the revenue amount starts from. */
  const RevenueUnset: real := -1.0

  /** The revenue passed to `setRevenue`, or `None` when it is not called. */
  function RevenueFor(revenue: Option<real>, currency: Option<string>): (r: Option<Revenue>)
    ensures r.Some? <==> currency.Some? && revenue.Some? && revenue.value != RevenueUnset
    ensures r.Some? ==> r.value.amount == revenue.value && r.value.currency == currency.value
  {
    var amount := GetOr(revenue, RevenueUnset);
    if currency.Some? && amount != RevenueUnset then Some(Revenue(amount, currency.value)) else None
  }
}
