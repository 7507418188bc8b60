/**
 * OAuth connection management (google_meet_agent/auth.py): finding the
 * integration of an app, finding an existing connection, starting the OAuth
 * flow, classifying what waiting for it raised, and the `ensure_*` entry
 * points that skip OAuth when a connection already exists.
 *
 * The SDK calls are oracles: the integration listing and the account
 * listing are values, starting a connection request and waiting on it are
 * functions of their arguments.
 */
module Auth {
  import opened Values
  import opened Errors
  import opened Sdk

  const GoogleMeetApp := "googlemeet"
  const GoogleDriveApp := "googledrive"

  // ---------------------------------------------------------- integrations

  predicate IsFirstIntegration(ints: seq<Integration>, i: int, app: string) {
    0 <= i < |ints| && ints[i].appName == app && forall j | 0 <= j < i :: ints[j].appName != app
  }

  /** The index of the first integration whose appName equals the app name exactly. */
  function FirstIntegration(ints: seq<Integration>, app: string): (r: Option<nat>)
    ensures r.Some? ==> IsFirstIntegration(ints, r.value, app)
    ensures r.None? ==> forall j | 0 <= j < |ints| :: ints[j].appName != app
  {
    if ints == [] then None
    else if ints[0].appName == app then Some(0)
    else
      var rest := FirstIntegration(ints[1..], app);
      if rest.Some? then Some(rest.value + 1) else None
  }

  function NoIntegrationError(app: string): AgentError {
    AuthConfigNotFoundError(Some("No " + app + " integration found. Create one at https://app.composio.dev"), None)
  }

  /** The memo is consulted only when it holds a non-empty id. */
  predicate MemoHit(memo: Option<string>) {
    memo.Some? && memo.value != ""
  }

  /** What `_get_integration_id` returns or raises, and the memo it leaves. */
  datatype Lookup = Lookup(result: Result<string, AgentError>, memo: Option<string>)

  /**
   * `_get_integration_id`: a non-empty memo is returned without listing;
   * otherwise the first integration of the app is stored and returned, no
   * match raises AuthConfigNotFoundError, an AuthConfigNotFoundError from the
   * listing passes unchanged and any other failure is wrapped in one.
   */
  function IntegrationLookup(app: string, memo: Option<string>, integrations: Result<seq<Integration>, Exc>): (l: Lookup)
    ensures MemoHit(memo) ==> l == Lookup(Success(memo.value), memo)
    ensures l.result.Failure? ==> l.memo == memo && l.result.error.kind == AuthConfigNotFound
    ensures l.result.Success? ==> l.memo == Some(l.result.value)
    ensures !MemoHit(memo) && integrations.Success? ==>
              (l.result.Success? <==> exists i :: IsFirstIntegration(integrations.value, i, app))
    ensures !MemoHit(memo) && integrations.Success? ==>
              forall i | IsFirstIntegration(integrations.value, i, app) :: l.result == Success(integrations.value[i].id)
    ensures !MemoHit(memo) && integrations.Success? && l.result.Failure? ==> l.result.error == NoIntegrationError(app)
    ensures !MemoHit(memo) && integrations.Failure? ==> l.result.Failure?
    ensures !MemoHit(memo) && integrations.Failure? && !IsInstance(integrations.error, AuthConfigNotFoundErrorClass) ==>
              l.result.error.cause == Some(integrations.error)
              && l.result.error.message == "Failed to find " + app + " integration: " + ExcText(integrations.error)
  {
    if MemoHit(memo) then Lookup(Success(memo.value), memo)
    else match integrations
      case Failure(e) =>
        if IsInstance(e, AuthConfigNotFoundErrorClass) then Lookup(Failure(e.err), memo)
        else Lookup(Failure(AuthConfigNotFoundError(Some("Failed to find " + app + " integration: " + ExcText(e)), Some(e))), memo)
      case Success(ints) =>
        var i := FirstIntegration(ints, app);
        if i.Some? then Lookup(Success(ints[i.value].id), Some(ints[i.value].id))
        else Lookup(Failure(NoIntegrationError(app)), memo)
  }

  /**
   * The memo makes the lookup stable: once an id that is not empty has been
   * found, every later lookup returns it, whatever the listing would say.
   */
  lemma IntegrationLookupMemoised(app: string, memo: Option<string>, first: Result<seq<Integration>, Exc>,
                                  later: Result<seq<Integration>, Exc>)
    requires IntegrationLookup(app, memo, first).result.Success?
    requires IntegrationLookup(app, memo, first).result.value != ""
    ensures var l := IntegrationLookup(app, memo, first);
            IntegrationLookup(app, l.memo, later) == l
  {
  }

  // ---------------------------------------------------------- connections

  /** `getattr(account, "appName", "") or getattr(account, "app_name", "")`. */
  function LegacyAppName(a: Account): string {
    if a.appName != "" then a.appName else a.appNameSnake
  }

  predicate ConnectsTo(a: Account, app: string) {
    Lower(LegacyAppName(a)) == Lower(app)
  }

  predicate IsFirstConnection(accs: seq<Account>, i: int, app: string) {
    0 <= i < |accs| && ConnectsTo(accs[i], app) && forall j | 0 <= j < i :: !ConnectsTo(accs[j], app)
  }

  /**
   * `get_existing_connection`: the first active account whose app name
   * equals the manager's, ignoring case; None when there is none or the
   * listing raised.
   */
  function ExistingConnection(app: string, lookup: AccountsLookup): (r: Option<Account>)
    ensures r.Some? <==> !lookup.LookupRaised? && exists i :: IsFirstConnection(AccountsOf(lookup), i, app)
    ensures !lookup.LookupRaised? ==>
              forall i | IsFirstConnection(AccountsOf(lookup), i, app) :: r == Some(AccountsOf(lookup)[i])
  {
    if lookup.LookupRaised? then None else FirstConnection(AccountsOf(lookup), app)
  }

  function FirstConnection(accs: seq<Account>, app: string): (r: Option<Account>)
    ensures r.Some? <==> exists i :: IsFirstConnection(accs, i, app)
    ensures forall i | IsFirstConnection(accs, i, app) :: r == Some(accs[i])
  {
    if accs == [] then None
    else if ConnectsTo(accs[0], app) then
      assert IsFirstConnection(accs, 0, app);
      Some(accs[0])
    else
      var rest := FirstConnection(accs[1..], app);
      assert forall i | IsFirstConnection(accs, i, app) :: i > 0 && IsFirstConnection(accs[1..], i - 1, app);
      assert forall i | IsFirstConnection(accs[1..], i, app) :: IsFirstConnection(accs, i + 1, app);
      rest
  }

  // ------------------------------------------------------------------ OAuth

  const NoRedirectMessage := "Could not get OAuth URL from Composio."

  /** The oracles behind one `ensure_*` call. */
  datatype AuthEnv = AuthEnv(
    accounts: AccountsLookup,
    integrations: Result<seq<Integration>, Exc>,
    /** `connected_accounts.initiate(integration_id=...)`. */
    initiate: string -> Result<ConnectionRequest, Exc>,
    /** `wait_until_active(client=..., timeout=...)`. */
    waitWithClient: ConnectionRequest -> Result<Option<Account>, Exc>,
    /** `wait_until_active(timeout=...)`, the fallback after a TypeError. */
    waitPlain: ConnectionRequest -> Result<Option<Account>, Exc>)

  /**
   * `initiate_oauth`: the integration lookup, then the connection request,
   * which must carry a non-empty redirectUrl. Every failure is an
   * AuthConfigNotFoundError: one raised inside passes unchanged, anything
   * else is wrapped.
   */
  function InitiateOAuthResult(app: string, memo: Option<string>, env: AuthEnv): (l: (Result<ConnectionRequest, AgentError>, Option<string>))
    ensures l.0.Failure? ==> l.0.error.kind == AuthConfigNotFound
    ensures l.1 == IntegrationLookup(app, memo, env.integrations).memo
    ensures IntegrationLookup(app, memo, env.integrations).result.Failure? ==>
              l.0 == Failure(IntegrationLookup(app, memo, env.integrations).result.error)
    ensures l.0.Success? ==>
              var id := IntegrationLookup(app, memo, env.integrations).result;
              id.Success? && env.initiate(id.value) == Success(l.0.value)
              && l.0.value.redirectUrl.Some? && l.0.value.redirectUrl.value != ""
    ensures IntegrationLookup(app, memo, env.integrations).result.Success? ==>
              var req := env.initiate(IntegrationLookup(app, memo, env.integrations).result.value);
              && (req.Success? && (req.value.redirectUrl.None? || req.value.redirectUrl.value == "") ==>
                    l.0 == Failure(AuthConfigNotFoundError(Some(NoRedirectMessage), None)))
              && (req.Failure? && !IsInstance(req.error, AuthConfigNotFoundErrorClass) ==>
                    l.0 == Failure(AuthConfigNotFoundError(Some("Failed to initiate OAuth: " + ExcText(req.error)), Some(req.error))))
  {
    var lookup := IntegrationLookup(app, memo, env.integrations);
    match lookup.result
    case Failure(e) => (Failure(e), lookup.memo)
    case Success(id) =>
      match env.initiate(id)
      case Failure(x) =>
        if IsInstance(x, AuthConfigNotFoundErrorClass) then (Failure(x.err), lookup.memo)
        else (Failure(AuthConfigNotFoundError(Some("Failed to initiate OAuth: " + ExcText(x)), Some(x))), lookup.memo)
      case Success(req) =>
        if req.redirectUrl.None? || req.redirectUrl.value == "" then
          (Failure(AuthConfigNotFoundError(Some(NoRedirectMessage), None)), lookup.memo)
        else (Success(req), lookup.memo)
  }

  predicate TimeoutIndicated(msg: string) { Contains(msg, "timeout") || Contains(msg, "timed out") }

  /** Whether a wait outcome is the TypeError that triggers the fallback call. */
  predicate IsTypeError(o: Result<Option<Account>, Exc>) {
    o.Failure? && o.error.Foreign? && o.error.typeName == "TypeError"
  }

  /**
   * `wait_for_connection`: a TypeError of the first call falls back to the
   * call without the client; a falsy account is a timeout; an
   * OAuthTimeoutError passes unchanged; any other failure is classified by
   * its lowered text as a timeout, an expiry, or a connection failure.
   */
  function WaitForConnection(timeout: int, withClient: Result<Option<Account>, Exc>, plain: Result<Option<Account>, Exc>): (r: Result<Account, AgentError>)
    ensures var o := if IsTypeError(withClient) then plain else withClient;
            && (o.Success? && o.value.Some? <==> r.Success?)
            && (r.Success? ==> o.value == Some(r.value))
            && (o.Success? && o.value.None? ==> r == Failure(OAuthTimeoutError(timeout, None)))
            && (o.Failure? && IsInstance(o.error, OAuthTimeoutErrorClass) ==> r == Failure(o.error.err))
            && (o.Failure? && !IsInstance(o.error, OAuthTimeoutErrorClass) ==>
                  var msg := Lower(ExcText(o.error));
                  && r.error.cause == Some(o.error)
                  && (r.error.kind == OAuthTimeout(timeout) <==> TimeoutIndicated(msg))
                  && (r.error.kind == ConnectionExpired <==> !TimeoutIndicated(msg) && Contains(msg, "expired"))
                  && (r.error.kind == ComposioConnection <==> !TimeoutIndicated(msg) && !Contains(msg, "expired")))
    ensures r.Failure? ==> r.error.kind.OAuthTimeout? || r.error.kind == ConnectionExpired || r.error.kind == ComposioConnection
  {
    var o := if IsTypeError(withClient) then plain else withClient;
    match o
    case Success(account) =>
      if account.Some? then Success(account.value) else Failure(OAuthTimeoutError(timeout, None))
    case Failure(e) =>
      if IsInstance(e, OAuthTimeoutErrorClass) then Failure(e.err)
      else
        var msg := Lower(ExcText(e));
        if TimeoutIndicated(msg) then Failure(OAuthTimeoutError(timeout, Some(e)))
        else if Contains(msg, "expired") then Failure(ConnectionExpiredError(None, Some(e)))
        else Failure(ComposioConnectionError("Failed while waiting for OAuth: " + ExcText(e), Some(e)))
  }

  /**
   * What `ensure_google_meet_connection` / `ensure_google_drive_connection`
   * yield for the given app: an existing connection as it is, otherwise the
   * account the OAuth flow of a fresh manager ends with.
   */
  function ConnectionOutcome(app: string, env: AuthEnv, timeout: int): Result<Account, AgentError> {
    var existing := ExistingConnection(app, env.accounts);
    if existing.Some? then Success(existing.value)
    else
      match InitiateOAuthResult(app, None, env).0
      case Failure(e) => Failure(e)
      case Success(req) => WaitForConnection(timeout, env.waitWithClient(req), env.waitPlain(req))
  }

  /**
   * An existing connection short-circuits the flow: the result is that
   * connection, whatever the integration listing, the initiation and the
   * wait would have done.
   */
  lemma ExistingConnectionShortCircuits(app: string, env: AuthEnv, other: AuthEnv, timeout: int)
    requires ExistingConnection(app, env.accounts).Some?
    requires other.accounts == env.accounts
    ensures ConnectionOutcome(app, env, timeout) == Success(ExistingConnection(app, env.accounts).value)
    ensures ConnectionOutcome(app, other, timeout) == ConnectionOutcome(app, env, timeout)
  {
  }

  /**
   * The errors an `ensure_*` call can raise: AuthConfigNotFoundError from
   * the integration and initiation steps, and OAuthTimeoutError,
   * ConnectionExpiredError or ComposioConnectionError from the wait.
   */
  lemma ConnectionFailureKinds(app: string, env: AuthEnv, timeout: int)
    ensures var r := ConnectionOutcome(app, env, timeout);
            r.Failure? ==> r.error.kind == AuthConfigNotFound || r.error.kind.OAuthTimeout?
                           || r.error.kind == ConnectionExpired || r.error.kind == ComposioConnection
    ensures var r := ConnectionOutcome(app, env, timeout);
            r.Success? ==> ExistingConnection(app, env.accounts) == Some(r.value)
                           || (ExistingConnection(app, env.accounts).None? && InitiateOAuthResult(app, None, env).0.Success?)
  {
  }

  // ------------------------------------------------------------- manager

  /** `GoogleAuthManager`: the app it manages and the memoised integration id. */
  class GoogleAuthManager {
    const appName: string
    var integrationId: Option<string>

    constructor(appName: string)
      ensures this.appName == appName && integrationId.None?
    {
      this.appName := appName;
      integrationId := None;
    }

    /** `_get_integration_id`, scanning the listing and storing the id it finds. */
    method GetIntegrationId(integrations: Result<seq<Integration>, Exc>) returns (r: Result<string, AgentError>)
      modifies this
      ensures Lookup(r, integrationId) == IntegrationLookup(appName, old(integrationId), integrations)
    {
      if integrationId.Some? && integrationId.value != "" {
        return Success(integrationId.value);
      }
      if integrations.Failure? {
        var e := integrations.error;
        if IsInstance(e, AuthConfigNotFoundErrorClass) {
          return Failure(e.err);
        }
        return Failure(AuthConfigNotFoundError(Some("Failed to find " + appName + " integration: " + ExcText(e)), Some(e)));
      }
      var ints := integrations.value;
      var i := 0;
      while i < |ints|
        invariant 0 <= i <= |ints|
        invariant forall j | 0 <= j < i :: ints[j].appName != appName
      {
        if ints[i].appName == appName {
          assert IsFirstIntegration(ints, i, appName);
          FirstIntegrationUnique(ints, i, appName);
          integrationId := Some(ints[i].id);
          return Success(ints[i].id);
        }
        i := i + 1;
      }
      return Failure(NoIntegrationError(appName));
    }

    /** `get_existing_connection`, scanning the accounts. */
    method GetExistingConnection(lookup: AccountsLookup) returns (r: Option<Account>)
      ensures r == ExistingConnection(appName, lookup)
    {
      if lookup.LookupRaised? {
        return None;
      }
      var accounts := AccountsOf(lookup);
      var wanted := Lower(appName);
      var i := 0;
      while i < |accounts|
        invariant 0 <= i <= |accounts|
        invariant forall j | 0 <= j < i :: !ConnectsTo(accounts[j], appName)
      {
        if Lower(LegacyAppName(accounts[i])) == wanted {
          assert IsFirstConnection(accounts, i, appName);
          return Some(accounts[i]);
        }
        i := i + 1;
      }
      return None;
    }

    /** `initiate_oauth` (the browser is not modelled). */
    method InitiateOAuth(env: AuthEnv) returns (r: Result<ConnectionRequest, AgentError>)
      modifies this
      ensures (r, integrationId) == InitiateOAuthResult(appName, old(integrationId), env)
    {
      var id := GetIntegrationId(env.integrations);
      if id.Failure? {
        return Failure(id.error);
      }
      var request := env.initiate(id.value);
      if request.Failure? {
        var x := request.error;
        if IsInstance(x, AuthConfigNotFoundErrorClass) {
          return Failure(x.err);
        }
        return Failure(AuthConfigNotFoundError(Some("Failed to initiate OAuth: " + ExcText(x)), Some(x)));
      }
      var req := request.value;
      if req.redirectUrl.None? || req.redirectUrl.value == "" {
        return Failure(AuthConfigNotFoundError(Some(NoRedirectMessage), None));
      }
      return Success(req);
    }
  }

  lemma FirstIntegrationUnique(ints: seq<Integration>, i: nat, app: string)
    requires IsFirstIntegration(ints, i, app)
    ensures FirstIntegration(ints, app) == Some(i)
  {
  }

  /** The result of an `ensure_*` call for `app`, built as the source does with a fresh manager. */
  method EnsureConnection(app: string, env: AuthEnv, timeout: int) returns (r: Result<Account, AgentError>)
    ensures r == ConnectionOutcome(app, env, timeout)
  {
    var manager := new GoogleAuthManager(app);
    var existing := manager.GetExistingConnection(env.accounts);
    if existing.Some? {
      return Success(existing.value);
    }
    var request := manager.InitiateOAuth(env);
    if request.Failure? {
      return Failure(request.error);
    }
    var req := request.value;
    r := WaitForConnection(timeout, env.waitWithClient(req), env.waitPlain(req));
  }

  /** `ensure_google_meet_connection`. */
  method EnsureGoogleMeetConnection(env: AuthEnv, timeout: int) returns (r: Result<Account, AgentError>)
    ensures r == ConnectionOutcome(GoogleMeetApp, env, timeout)
  {
    r := EnsureConnection(GoogleMeetApp, env, timeout);
  }

  /** `ensure_google_drive_connection`. */
  method EnsureGoogleDriveConnection(env: AuthEnv, timeout: int) returns (r: Result<Account, AgentError>)
    ensures r == ConnectionOutcome(GoogleDriveApp, env, timeout)
  {
    r := EnsureConnection(GoogleDriveApp, env, timeout);
  }

  /**
   * `check_google_drive_connection`: true exactly when some listed account
   * is a Google Drive connection, ignoring case; false when listing raised.
   */
  method CheckGoogleDriveConnection(accounts: AccountsLookup) returns (connected: bool)
    ensures connected <==> !accounts.LookupRaised?
                           && exists i | 0 <= i < |AccountsOf(accounts)| :: ConnectsTo(AccountsOf(accounts)[i], GoogleDriveApp)
  {
    var manager := new GoogleAuthManager(GoogleDriveApp);
    var existing := manager.GetExistingConnection(accounts);
    connected := existing.Some?;
    if !accounts.LookupRaised? {
      FirstConnectionExists(AccountsOf(accounts), GoogleDriveApp);
    }
  }

  /** Some account connects to the app exactly when there is a first one that does. */
  lemma FirstConnectionExists(accs: seq<Account>, app: string)
    ensures (exists i :: IsFirstConnection(accs, i, app)) <==> exists i | 0 <= i < |accs| :: ConnectsTo(accs[i], app)
  {
    if exists i | 0 <= i < |accs| :: ConnectsTo(accs[i], app) {
      var i :| 0 <= i < |accs| && ConnectsTo(accs[i], app);
      var f := FirstConnection(accs, app);
      if f.None? {
        assert forall k | 0 <= k < |accs| :: !IsFirstConnection(accs, k, app);
        LeastConnection(accs, i, app);
      }
    }
  }

  lemma LeastConnection(accs: seq<Account>, i: nat, app: string)
    requires i < |accs| && ConnectsTo(accs[i], app)
    ensures exists k :: IsFirstConnection(accs, k, app)
    decreases i
  {
    if !IsFirstConnection(accs, i, app) {
      var j :| 0 <= j < i && ConnectsTo(accs[j], app);
      LeastConnection(accs, j, app);
    }
  }
}
