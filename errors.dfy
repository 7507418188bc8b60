/**
 * The agent's exception taxonomy (google_meet_agent/exceptions.py) as data.
 *
 * An `AgentError` is one instance of a class of the hierarchy rooted at
 * GoogleMeetAgentError: its kind (with the fields that kind adds), the
 * message `str(e)` shows, and the optional cause. `Exc` is anything a
 * Python `except Exception` can catch: one of these errors, or an exception
 * from outside the package, known only by its class name and its text.
 */
module Errors {
  import opened Values

  datatype ErrorKind =
    | AgentErrorBase                            // GoogleMeetAgentError itself
    | Configuration
    | AuthConfigNotFound
    | OAuthTimeout(timeout: int)
    | ConnectionExpired
    | ComposioConnection
    | GoogleMeetApi(statusCode: Option<int>)
    | RateLimit(retryAfter: Option<int>)        // status_code is always 429
    | NoConferences
    | AgentExecution

  datatype AgentError = AgentError(kind: ErrorKind, message: string, cause: Option<Exc>)

  datatype Exc =
    | Own(err: AgentError)
      /** An exception the package did not define; `anthropicApi` marks anthropic.APIError and its subclasses. */
    | Foreign(typeName: string, text: string, anthropicApi: bool)

  /** `str(e)`. */
  function ExcText(e: Exc): string {
    match e
    case Own(err) => err.message
    case Foreign(_, text, _) => text
  }

  /** `type(e).__name__`. */
  function ExcTypeName(e: Exc): string {
    match e
    case Own(err) => KindName(err.kind)
    case Foreign(name, _, _) => name
  }

  function KindName(k: ErrorKind): string {
    match k
    case AgentErrorBase => "GoogleMeetAgentError"
    case Configuration => "ConfigurationError"
    case AuthConfigNotFound => "AuthConfigNotFoundError"
    case OAuthTimeout(_) => "OAuthTimeoutError"
    case ConnectionExpired => "ConnectionExpiredError"
    case ComposioConnection => "ComposioConnectionError"
    case GoogleMeetApi(_) => "GoogleMeetAPIError"
    case RateLimit(_) => "RateLimitError"
    case NoConferences => "NoConferencesError"
    case AgentExecution => "AgentExecutionError"
  }

  // ------------------------------------------------------------ hierarchy

  datatype ErrorClass =
    | GoogleMeetAgentErrorClass
    | ConfigurationErrorClass
    | AuthConfigNotFoundErrorClass
    | OAuthTimeoutErrorClass
    | ConnectionExpiredErrorClass
    | ComposioConnectionErrorClass
    | GoogleMeetAPIErrorClass
    | RateLimitErrorClass
    | NoConferencesErrorClass
    | AgentExecutionErrorClass

  function ClassOf(k: ErrorKind): ErrorClass {
    match k
    case AgentErrorBase => GoogleMeetAgentErrorClass
    case Configuration => ConfigurationErrorClass
    case AuthConfigNotFound => AuthConfigNotFoundErrorClass
    case OAuthTimeout(_) => OAuthTimeoutErrorClass
    case ConnectionExpired => ConnectionExpiredErrorClass
    case ComposioConnection => ComposioConnectionErrorClass
    case GoogleMeetApi(_) => GoogleMeetAPIErrorClass
    case RateLimit(_) => RateLimitErrorClass
    case NoConferences => NoConferencesErrorClass
    case AgentExecution => AgentExecutionErrorClass
  }

  /** The declared base class (the root's base, Exception, is outside the package). */
  function Parent(c: ErrorClass): Option<ErrorClass> {
    match c
    case GoogleMeetAgentErrorClass => None
    case RateLimitErrorClass => Some(GoogleMeetAPIErrorClass)
    case _ => Some(GoogleMeetAgentErrorClass)
  }

  function Depth(c: ErrorClass): nat {
    match c
    case GoogleMeetAgentErrorClass => 0
    case RateLimitErrorClass => 2
    case _ => 1
  }

  /** `issubclass(c, d)`. */
  predicate IsSubclass(c: ErrorClass, d: ErrorClass)
    decreases Depth(c)
  {
    c == d || (Parent(c).Some? && Depth(Parent(c).value) < Depth(c) && IsSubclass(Parent(c).value, d))
  }

  /** `isinstance(e, d)`. */
  predicate IsInstance(e: Exc, d: ErrorClass) {
    e.Own? && IsSubclass(ClassOf(e.err.kind), d)
  }

  /**
   * The hierarchy: every error is a GoogleMeetAgentError; the
   * GoogleMeetAPIErrors are exactly the API errors and the rate-limit
   * errors; every other class has only itself and the root as ancestors.
   */
  lemma Hierarchy(e: AgentError, d: ErrorClass)
    ensures IsInstance(Own(e), GoogleMeetAgentErrorClass)
    ensures IsInstance(Own(e), GoogleMeetAPIErrorClass) <==> (e.kind.GoogleMeetApi? || e.kind.RateLimit?)
    ensures IsInstance(Own(e), d) <==>
              d == ClassOf(e.kind) || d == GoogleMeetAgentErrorClass
              || (e.kind.RateLimit? && d == GoogleMeetAPIErrorClass)
  {
  }

  /** `status_code`, present on GoogleMeetAPIError and its subclass only. */
  function StatusCode(e: AgentError): (r: Option<int>)
    requires e.kind.GoogleMeetApi? || e.kind.RateLimit?
    ensures e.kind.RateLimit? ==> r == Some(429)
  {
    match e.kind
    case GoogleMeetApi(code) => code
    case RateLimit(_) => Some(429)
  }

  // --------------------------------------------------------- constructors

  /** `message or default`: an absent or empty message takes the default. */
  function OrDefault(message: Option<string>, default: string): (r: string)
    ensures message.Some? && message.value != "" ==> r == message.value
    ensures message.None? || message.value == "" ==> r == default
  {
    if message.Some? && message.value != "" then message.value else default
  }

  const AuthConfigDefaultMessage := "No Google Meet auth config found. Please create one at https://app.composio.dev (Auth Configs > Create > Google Meet)"
  const ConnectionExpiredDefaultMessage := "Google Meet connection has expired. Please reconnect your account."
  const NoConferencesDefaultMessage := "No conference records found. You may not have any past meetings, or they may be outside the query range."
  const RateLimitDefaultMessage := "Google Meet API rate limit exceeded."
  const OAuthTimeoutPrefix := "OAuth flow timed out after "
  const OAuthTimeoutSuffix := " seconds. Please try again."

  function ConfigurationError(message: string, cause: Option<Exc>): AgentError {
    AgentError(Configuration, message, cause)
  }

  function ComposioConnectionError(message: string, cause: Option<Exc>): AgentError {
    AgentError(ComposioConnection, message, cause)
  }

  function AuthConfigNotFoundError(message: Option<string>, cause: Option<Exc>): (e: AgentError)
    ensures e.kind == AuthConfigNotFound && e.cause == cause
    ensures e.message == OrDefault(message, AuthConfigDefaultMessage)
  {
    AgentError(AuthConfigNotFound, OrDefault(message, AuthConfigDefaultMessage), cause)
  }

  function ConnectionExpiredError(message: Option<string>, cause: Option<Exc>): (e: AgentError)
    ensures e.kind == ConnectionExpired && e.cause == cause
    ensures e.message == OrDefault(message, ConnectionExpiredDefaultMessage)
  {
    AgentError(ConnectionExpired, OrDefault(message, ConnectionExpiredDefaultMessage), cause)
  }

  function NoConferencesError(message: Option<string>, cause: Option<Exc>): (e: AgentError)
    ensures e.kind == NoConferences && e.cause == cause
    ensures e.message == OrDefault(message, NoConferencesDefaultMessage)
  {
    AgentError(NoConferences, OrDefault(message, NoConferencesDefaultMessage), cause)
  }

  function OAuthTimeoutError(timeout: int, cause: Option<Exc>): (e: AgentError)
    ensures e.kind == OAuthTimeout(timeout) && e.cause == cause
  {
    AgentError(OAuthTimeout(timeout), OAuthTimeoutPrefix + IntToDecimal(timeout) + OAuthTimeoutSuffix, cause)
  }

  function GoogleMeetAPIError(message: string, statusCode: Option<int>, cause: Option<Exc>): (e: AgentError)
    ensures e.kind.GoogleMeetApi? && StatusCode(e) == statusCode
    ensures e.message == message && e.cause == cause
  {
    AgentError(GoogleMeetApi(statusCode), message, cause)
  }

  /** Truthiness of an `int | None`. */
  predicate TruthyInt(n: Option<int>) {
    n.Some? && n.value != 0
  }

  function RateLimitError(message: Option<string>, retryAfter: Option<int>, cause: Option<Exc>): (e: AgentError)
    ensures e.kind == RateLimit(retryAfter) && StatusCode(e) == Some(429) && e.cause == cause
  {
    AgentError(RateLimit(retryAfter), RateLimitMessage(message, retryAfter), cause)
  }

  /**
   * The message: an explicit one (even empty) as given; otherwise the default
   * text, with the retry hint appended only when retry_after is truthy.
   */
  function RateLimitMessage(message: Option<string>, retryAfter: Option<int>): (m: string)
    ensures message.Some? ==> m == message.value
    ensures message.None? && !TruthyInt(retryAfter) ==> m == RateLimitDefaultMessage
    ensures message.None? && TruthyInt(retryAfter) ==>
              m == RateLimitDefaultMessage + " Retry after " + IntToDecimal(retryAfter.value) + " seconds."
  {
    if message.Some? then message.value
    else if TruthyInt(retryAfter) then
      RateLimitDefaultMessage + " Retry after " + IntToDecimal(retryAfter.value) + " seconds."
    else RateLimitDefaultMessage
  }

  /** The timeout is stored, and the message carries it: the message alone determines it. */
  lemma {:induction false} OAuthTimeoutMessageCarriesTimeout(t1: int, t2: int, c1: Option<Exc>, c2: Option<Exc>)
    ensures OAuthTimeoutError(t1, c1).message == OAuthTimeoutError(t2, c2).message ==> t1 == t2
    ensures StartsWith(OAuthTimeoutError(t1, c1).message, OAuthTimeoutPrefix)
  {
    var m1 := OAuthTimeoutError(t1, c1).message;
    var m2 := OAuthTimeoutError(t2, c2).message;
    var p, s := |OAuthTimeoutPrefix|, |OAuthTimeoutSuffix|;
    assert m1[p..|m1| - s] == IntToDecimal(t1);
    assert m2[p..|m2| - s] == IntToDecimal(t2);
    IntToDecimalInjective(t1, t2);
  }

  /** The retry hint of a defaulted message determines retry_after. */
  lemma {:induction false} RateLimitHintCarriesRetryAfter(a: int, b: int)
    requires a != 0 && b != 0
    ensures RateLimitMessage(None, Some(a)) == RateLimitMessage(None, Some(b)) ==> a == b
  {
    var m1, m2 := RateLimitMessage(None, Some(a)), RateLimitMessage(None, Some(b));
    var p := |RateLimitDefaultMessage + " Retry after "|;
    var s := |" seconds."|;
    assert m1[p..|m1| - s] == IntToDecimal(a);
    assert m2[p..|m2| - s] == IntToDecimal(b);
    IntToDecimalInjective(a, b);
  }
}
