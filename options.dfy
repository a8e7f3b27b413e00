/**
 * The logger's configuration, its defaults, and the start-up validation that
 * rejects a configuration with the first condition it violates.
 */
module Options {

  /** A GUID as its 128-bit value; Guid.Empty is 0. */
  type Guid = n: int | 0 <= n < 0x1_0000_0000_0000_0000_0000_0000_0000_0000
  const EmptyGuid: Guid := 0

  /** TimeSpan values are tick counts. */
  const TicksPerSecond := 10_000_000

  datatype LoggerOptions = LoggerOptions(
    licenseKey: Guid,
    environment: int,            // the underlying value of the environment enum
    projectName: string,
    endpointUrl: string,
    batchSize: int,
    flushInterval: int,          // ticks
    includeUserId: bool,
    includeRequestHeaders: bool,
    includeResponseHeaders: bool,
    includeRequestBody: bool,
    includeResponseBody: bool,
    maxBodyLength: int)

  /** The options as constructed, before the application configures them. */
  function Defaults(): LoggerOptions {
    LoggerOptions(
      licenseKey := EmptyGuid,
      environment := 0,
      projectName := "UnknownProject",
      endpointUrl := "",
      batchSize := 50,
      flushInterval := 3 * TicksPerSecond,
      includeUserId := false,
      includeRequestHeaders := false,
      includeResponseHeaders := false,
      includeRequestBody := false,
      includeResponseBody := false,
      maxBodyLength := 4096)
  }

  /** char.IsWhiteSpace: the Unicode space, line and paragraph separators, and
      the control characters U+0009 to U+000D and U+0085. */
  predicate IsWhiteSpace(c: char) {
    || ('\U{0009}' <= c <= '\U{000D}')
    || c == '\U{0020}' || c == '\U{0085}' || c == '\U{00A0}' || c == '\U{1680}'
    || ('\U{2000}' <= c <= '\U{200A}')
    || c == '\U{2028}' || c == '\U{2029}' || c == '\U{202F}' || c == '\U{205F}' || c == '\U{3000}'
  }

  /** string.IsNullOrWhiteSpace for a non-null string. */
  predicate IsBlank(s: string) {
    forall i :: 0 <= i < |s| ==> IsWhiteSpace(s[i])
  }

  /** The seven conditions, in the order they are checked. */
  datatype ConfigError =
    | EmptyLicenseKey
    | EmptyEndpointUrl
    | RelativeEndpointUrl
    | UndefinedEnvironment
    | NonPositiveBatchSize
    | NonPositiveFlushInterval
    | NonPositiveMaxBodyLength

  function Rank(e: ConfigError): nat {
    match e
    case EmptyLicenseKey => 0
    case EmptyEndpointUrl => 1
    case RelativeEndpointUrl => 2
    case UndefinedEnvironment => 3
    case NonPositiveBatchSize => 4
    case NonPositiveFlushInterval => 5
    case NonPositiveMaxBodyLength => 6
  }

  /** The condition whose violation raises error e holds of o.
      isAbsoluteUri stands for Uri.IsWellFormedUriString(_, UriKind.Absolute);
      defined is the set of values the environment enum declares. */
  predicate Holds(o: LoggerOptions, e: ConfigError, isAbsoluteUri: string -> bool, defined: set<int>) {
    match e
    case EmptyLicenseKey => o.licenseKey != EmptyGuid
    case EmptyEndpointUrl => !IsBlank(o.endpointUrl)
    case RelativeEndpointUrl => isAbsoluteUri(o.endpointUrl)
    case UndefinedEnvironment => o.environment in defined
    case NonPositiveBatchSize => o.batchSize > 0
    case NonPositiveFlushInterval => o.flushInterval > 0
    case NonPositiveMaxBodyLength => o.maxBodyLength > 0
  }

  datatype Verdict = Accepted | Rejected(error: ConfigError)

  /** The chain of guards: the first violated condition decides the error. */
  function Validate(o: LoggerOptions, isAbsoluteUri: string -> bool, defined: set<int>): (r: Verdict)
    ensures r.Accepted? ==> forall e :: Holds(o, e, isAbsoluteUri, defined)
    ensures r.Rejected? ==> !Holds(o, r.error, isAbsoluteUri, defined)
    ensures r.Rejected? ==>
      forall e :: Rank(e) < Rank(r.error) ==> Holds(o, e, isAbsoluteUri, defined)
  {
    if o.licenseKey == EmptyGuid then Rejected(EmptyLicenseKey)
    else if IsBlank(o.endpointUrl) then Rejected(EmptyEndpointUrl)
    else if !isAbsoluteUri(o.endpointUrl) then Rejected(RelativeEndpointUrl)
    else if o.environment !in defined then Rejected(UndefinedEnvironment)
    else if o.batchSize <= 0 then Rejected(NonPositiveBatchSize)
    else if o.flushInterval <= 0 then Rejected(NonPositiveFlushInterval)
    else if o.maxBodyLength <= 0 then Rejected(NonPositiveMaxBodyLength)
    else Accepted
  }

  /** The verdict is a function of which conditions hold: the error is the
      violated condition of least rank. */
  lemma {:induction false} ValidateFirstViolation(o: LoggerOptions, isAbsoluteUri: string -> bool,
                                                  defined: set<int>, e: ConfigError)
    requires !Holds(o, e, isAbsoluteUri, defined)
    requires forall f :: Rank(f) < Rank(e) ==> Holds(o, f, isAbsoluteUri, defined)
    ensures Validate(o, isAbsoluteUri, defined) == Rejected(e)
  {
    var r := Validate(o, isAbsoluteUri, defined);
    RankInjective(e, r.error);
  }

  /** When every condition holds the configuration is accepted. */
  lemma ValidateAcceptsWhenAllHold(o: LoggerOptions, isAbsoluteUri: string -> bool, defined: set<int>)
    requires forall e :: Holds(o, e, isAbsoluteUri, defined)
    ensures Validate(o, isAbsoluteUri, defined) == Accepted
  {
  }

  lemma RankInjective(e: ConfigError, f: ConfigError)
    requires Rank(e) == Rank(f)
    ensures e == f
  {
  }

  /** The defaults lack a license key and an endpoint, and are rejected for the key. */
  lemma DefaultsRejected(isAbsoluteUri: string -> bool, defined: set<int>)
    ensures Validate(Defaults(), isAbsoluteUri, defined) == Rejected(EmptyLicenseKey)
  {
  }

  /** Once given a key and an absolute endpoint, the defaults pass every numeric
      check and are accepted exactly when the default environment value is defined. */
  lemma DefaultsAcceptedWithKeyAndEndpoint(key: Guid, url: string,
                                           isAbsoluteUri: string -> bool, defined: set<int>)
    requires key != EmptyGuid && !IsBlank(url) && isAbsoluteUri(url)
    ensures var o := Defaults().(licenseKey := key, endpointUrl := url);
      && o.batchSize == 50 && o.flushInterval == 3 * TicksPerSecond && o.maxBodyLength == 4096
      && (Validate(o, isAbsoluteUri, defined) == Accepted <==> 0 in defined)
  {
  }

  /** An accepted configuration is one the processor and middleware can rely on. */
  lemma AcceptedBounds(o: LoggerOptions, isAbsoluteUri: string -> bool, defined: set<int>)
    requires Validate(o, isAbsoluteUri, defined) == Accepted
    ensures o.batchSize >= 1 && o.flushInterval >= 1 && o.maxBodyLength >= 1
    ensures |o.endpointUrl| > 0 && o.environment in defined
  {
    assert Holds(o, EmptyEndpointUrl, isAbsoluteUri, defined);
  }

  // ---------------------------------------------------------------------------
  // Environment names

  function DigitChar(d: nat): (c: char)
    requires d < 10
    ensures '0' <= c <= '9' && c as int - '0' as int == d
  {
    ('0' as int + d) as char
  }

  predicate IsDigits(s: string) {
    forall i :: 0 <= i < |s| ==> '0' <= s[i] <= '9'
  }

  /** The number a string of decimal digits denotes, read left to right. */
  function DecimalValue(s: string): int
    decreases |s|
  {
    if s == [] then 0 else DecimalValue(s[..|s| - 1]) * 10 + (s[|s| - 1] as int - '0' as int)
  }

  /** The decimal digits of n, with no leading zero. */
  function NatToDecimal(n: nat): (r: string)
    ensures |r| >= 1 && IsDigits(r) && DecimalValue(r) == n
    ensures |r| > 1 ==> r[0] != '0'
    decreases n
  {
    if n < 10 then [DigitChar(n)]
    else
      var r := NatToDecimal(n / 10) + [DigitChar(n % 10)];
      assert r[..|r| - 1] == NatToDecimal(n / 10);
      r
  }

  /** The decimal text of an integer, as Int32.ToString writes it: a minus
      sign for a negative value, then the digits of its magnitude. */
  function IntToDecimal(n: int): (r: string)
    ensures n >= 0 ==> IsDigits(r) && DecimalValue(r) == n
    ensures n < 0 ==> |r| >= 2 && r[0] == '-' && IsDigits(r[1..]) && DecimalValue(r[1..]) == -n
  {
    if n < 0 then
      var r := "-" + NatToDecimal(-n);
      assert r[1..] == NatToDecimal(-n);
      r
    else NatToDecimal(n)
  }

  /** Enum.ToString: the declared name, or the number for an undefined value. */
  function EnvironmentName(value: int, names: map<int, string>): (r: string)
    ensures value in names ==> r == names[value]
    ensures value !in names ==> r == IntToDecimal(value)
  {
    if value in names then names[value] else IntToDecimal(value)
  }
}
