# Google Meet agent — a verified model of its core

The Google Meet agent answers natural-language questions about a user's past
Google Meet meetings. It does so by letting a language model call read-only
Google Meet and Google Drive tools offered by an integration platform. This
project models, in Dafny, the decisions the agent makes around those two
hosted services, and proves properties of that model:

- **The tool catalog** (`tools.dfy`, module `Tools`). Catalog entries of
  several SDK shapes are normalised into `{name, description, input_schema}`
  records with fixed fallback chains. Every Meet entry is kept, in catalog
  order. Drive entries are kept only when they are on a three-name
  allow-list. A Drive listing failure is swallowed; a Meet listing failure
  becomes a ComposioConnectionError. The load is retried up to three times.
  Descriptions are shortened for listing.
- **Tool execution** (`tools.dfy`). A tool is routed to a connected account
  by its name's prefix, and the account is picked by a priority rule. Results
  are wrapped in a success envelope. A download result gets the text behind
  its temporary URL and loses the URL. Failures are classified by substrings
  of their lowered text. Only rate-limit failures are retried.
- **Connections and OAuth** (`auth.dfy`, module `Auth`). The integration id
  is looked up and memoised in the manager's field. Existing connections are
  matched case-insensitively. The OAuth request must carry a redirect URL.
  What the OAuth wait raises is classified. The `ensure_*` entry points
  short-circuit on an existing connection.
- **The agent** (`agent.dfy`, module `Agent`). Settings are validated. Setup
  is one-time. The tool-calling conversation runs over an append-only
  transcript with a turn budget. The tool wrapper never raises. A query's
  outcome is mapped to an `AgentResponse`.
- **The error taxonomy** (`errors.dfy`, module `Errors`). All the exception
  classes are one datatype of error kinds, with their constructors'
  default-message, status-code and hierarchy rules.

`values.dfy` (module `Values`) models the Python values the core passes
around: truthiness, `dict.get`, `or`, ASCII lower-casing and decimal
rendering. `sdk.dfy` (module `Sdk`) holds the SDK response shapes the core
tells apart.

The remote services are parameters of the model:

- The integration platform's answers are datatype values, scripted per
  attempt of a retried operation (`nat -> CatalogFetch`, `nat -> ExecEnv`).
- The HTTP fetch of a download URL is a function from the URL value to the
  text it yields.
- The OAuth initiate and wait calls are functions of their arguments.
- The language model is a function from the tool list and the transcript so
  far to a reply or an exception.
- The agent's tool invoker is a function from a tool name and input to a
  result or an exception. `Agent.ComposioInvoker` builds the real one from
  the retried `execute_google_meet_tool`.

Where the code and its documentation differ, the model follows the code:

- `execute_google_meet_tool` is declared to retry ComposioConnectionError,
  but its `except Exception` turns every failure into a GoogleMeetAPIError.
  So only RateLimitError is ever re-attempted
  (`Tools.ExecuteRetriesOnlyRateLimits`).
- `query` calls setup before its `try`, and `list_available_tools` has no
  `try` at all. So a setup failure escapes both as an exception rather than
  becoming an error response.
- The result data is `result.get("data", result)`. A present but falsy
  `"data"` field is kept as it is, not replaced by the whole result.
- A nested `{"function": {...}}` entry's `parameters` reach the model
  unchanged, even when they are not a dictionary.

## Model

| member | source | states |
|---|---|---|
| Tools.ExtractToolList | google_meet_agent/tools.py:78-87 | the entry list is `items` if present, else `data`, else a plain list itself, else the iterated elements, else empty |
| Tools.ToolName | google_meet_agent/tools.py:88-98 | a dictionary with a dictionary under "function" is named by that inner dictionary's "name" (default ""); any other dictionary by its own "name" (default ""); an object by its `name` attribute when it has one, else by its text |
| Tools.NormalisedSchema | google_meet_agent/tools.py:228-233 | the schema always has "type" and "properties"; a non-dictionary becomes the empty object schema; a dictionary keeps every key and value it had and gains only the missing two, with defaults "object" and {} |
| Tools.RawSchema | google_meet_agent/tools.py:225 | the schema candidate is the first truthy of input_schema, inputSchema, parameters, else {} |
| Tools.ConvertToAnthropicFormat | google_meet_agent/tools.py:209-239 | the name is the first truthy of name, slug, action, else "unknown" (so always truthy); the description is the first truthy of description, desc, else ""; the schema is the completed first truthy candidate |
| Tools.ToolToAnthropic | google_meet_agent/tools.py:103-123 | a nested "function" entry takes name, description and parameters from the inner dictionary with defaults "unknown", "" and the empty object schema; other dictionaries and objects with a dictionary view go through the flat conversion; any other object is named by its text with an empty schema |
| Tools.NestedParametersPassThrough | google_meet_agent/tools.py:107-113 | a nested entry's parameters reach the model unchanged, not completed |
| Tools.IsDriveNoteTool | google_meet_agent/tools.py:185-188 | a kept Drive entry has a non-empty string name on the three-name allow-list |
| Tools.MeetSpecs | google_meet_agent/tools.py:171-175 | one converted tool per Meet entry |
| Tools.DriveSpecs | google_meet_agent/tools.py:183-189 | at most one converted tool per Drive entry |
| Tools.CatalogSpecs | google_meet_agent/tools.py:171-192 | every Meet entry is converted, one result per entry, in catalog order, nameless ones included; the Drive results are exactly the converted allow-listed entries |
| Tools.SpecsConcat | google_meet_agent/tools.py:171-192 | both conversions distribute over concatenation of entry lists, so the Drive tools keep catalog order as the Meet tools do |
| Tools.DriveDuplicatesKept | google_meet_agent/tools.py:183-189 | an allow-listed Drive entry listed twice is converted twice: nothing is deduplicated |
| Tools.CatalogAttempt | google_meet_agent/tools.py:163-206 | an attempt fails exactly when the Meet listing fails, with a ComposioConnectionError whose message is "Failed to fetch tools: " plus the failure's text and whose cause is that failure |
| Tools.CatalogAttemptContents | google_meet_agent/tools.py:165-199 | a successful attempt lists all Meet tools first; the allow-listed Drive tools follow when Drive was asked for and listed; with include_drive false or a failed Drive listing, only the Meet tools are returned |
| Tools.GetGoogleMeetTools | google_meet_agent/tools.py:145-206 | the two append loops build exactly the attempt's result |
| Tools.Retry | google_meet_agent/tools.py:139-144 | a retried call makes one to three attempts; every attempt before the last failed with a retryable error; it stops at a success, at an error that is not retryable, or after the third attempt, and re-raises the last error |
| Tools.GetGoogleMeetToolsRetried | google_meet_agent/tools.py:139-206 | no contract of its own: it is `Retry` of `CatalogAttempt` on ComposioConnectionError, and the two lemmas below state what it yields |
| Tools.CatalogRetriedOutcome | google_meet_agent/tools.py:139-206 | the retried load makes one to three attempts and yields the outcome of its last attempt |
| Tools.CatalogRetriesMeetFailures | google_meet_agent/tools.py:139-144 | the catalog load is re-attempted after every failed Meet listing; it fails only after three failed Meet listings, with a ComposioConnectionError; a first successful listing means one attempt |
| Tools.ShortDescription | google_meet_agent/tools.py:256-257 | a string description longer than 100 characters becomes its first 97 followed by "...", so it is at most 100 long; a shorter one is kept; `len` raises on None, booleans and integers; the slice raises on long dictionaries and the concatenation on long lists |
| Tools.ListedEntry | google_meet_agent/tools.py:253-258 | a listed tool's name is its "name" (default "unknown"); a missing description becomes "No description" |
| Tools.ListedTools | google_meet_agent/tools.py:251-259 | a successful listing has one entry per tool |
| Tools.ListedToolsSucceeds | google_meet_agent/tools.py:251-259 | listing succeeds exactly when every tool lists, and then holds each tool's listing in input order |
| Tools.ListedToolsFailsFirst | google_meet_agent/tools.py:252-258 | a failed listing raises what the first failing tool raised, all earlier tools having listed |
| Tools.ListAvailableTools | google_meet_agent/tools.py:242-259 | the append loop computes exactly the listing, stopping at the first exception |
| Tools.ListedToolsFailurePersists | google_meet_agent/tools.py:252-258 | once a prefix of the tools fails, every longer prefix fails with the same exception |
| Tools.FirstFor | google_meet_agent/tools.py:305-313 | the index found is the first account whose lowered app name matches, and none is found only when no account matches |
| Tools.SelectAccount | google_meet_agent/tools.py:278-320 | no accounts, or an exception, gives None and nothing else does; the id returned is a listed account's; it is the first account of the requested app (compared case-insensitively), else the first "googlemeet" account, else the first account |
| Tools.AbsentAppFallsBack | google_meet_agent/tools.py:304-316 | a requested app with no account of its own still yields an id, and it belongs to an account of another app |
| Tools.ConnectedAccountId | google_meet_agent/tools.py:262-320 | the scanning loops compute exactly the selection |
| Tools.AppForTool | google_meet_agent/tools.py:338-343 | GOOGLEDRIVE_ tools need the googledrive account, other GOOGLEMEET_ tools the googlemeet account, and any other tool no app filter |
| Tools.NoConnectionError | google_meet_agent/tools.py:378-388 | a missing account raises a 401 GoogleMeetAPIError with the Drive message for GOOGLEDRIVE_ tools and the Meet message otherwise |
| Tools.ClassifyFailure | google_meet_agent/tools.py:438-466 | a GoogleMeetAPIError (a RateLimitError included) passes unchanged; any other failure is classified by its lowered text: "429"/"rate limit" gives a default RateLimitError, then "403"/"permission" a 403, then "404"/"not found" a 404 naming the tool, otherwise a generic error quoting the tool and the text; each carries the failure as its cause, and the result is always a GoogleMeetAPIError |
| Tools.SuccessEnvelope | google_meet_agent/tools.py:434-436 | a success result is a dictionary of exactly "success" (True) and "data" |
| Tools.WithFetchedContent | google_meet_agent/tools.py:420-432 | with a truthy s3url, the data gains file_content (the fetched text) and content_fetched (True), s3url is removed from downloaded_file_content, and every other key at both levels is unchanged; without one the data is unchanged; `.get` on a value that is not a dictionary raises |
| Tools.ShapeDictResult | google_meet_agent/tools.py:414-434 | a truthy "error" raises a GoogleMeetAPIError "API Error: " plus the error's text; otherwise, for any tool but the download, the envelope holds `result.get("data", result)`; for the download it holds that data with the fetched content, and a failure of that step is classified |
| Tools.ShapeResponse | google_meet_agent/tools.py:413-466 | an SDK failure is classified; a dictionary result is shaped as above; any other result's text is wrapped in the envelope; so the attempt ends in an envelope or a GoogleMeetAPIError |
| Tools.AccountForTool | google_meet_agent/tools.py:322-343 | GOOGLEDRIVE_ tools take the account selected for googledrive, other GOOGLEMEET_ tools the one for googlemeet, and any other tool the selection without an app filter |
| Tools.ExecuteAttempt | google_meet_agent/tools.py:373-466 | a tool without a truthy account raises the 401 no-connection error; with one, the attempt is the shaped SDK response; either way it ends in an envelope or a GoogleMeetAPIError (a RateLimitError included) |
| Tools.ExecuteGoogleMeetTool | google_meet_agent/tools.py:346-466 | no contract of its own: it is `Retry` of `ExecuteAttempt` on ComposioConnectionError and RateLimitError, and `Tools.ExecuteRetriesOnlyRateLimits` states what it yields |
| Tools.ApiErrorRetryableIffRateLimit | google_meet_agent/tools.py:346-351 | among GoogleMeetAPIErrors, the retry predicate selects exactly the rate-limit errors |
| Tools.RetryOfApiFailures | google_meet_agent/tools.py:346-351 | with attempts that only fail with GoogleMeetAPIErrors, only rate-limit failures are re-attempted, any other failure ends the call, and a rate-limit failure is reported only after the last attempt |
| Tools.ExecuteRetriesOnlyRateLimits | google_meet_agent/tools.py:346-466 | execute makes one to three attempts and yields the outcome of its last attempt; every repeated attempt failed with a RateLimitError; a 401, 403, 404 or generic failure ends the call at once; a rate-limit failure escapes only after three attempts; what escapes is a GoogleMeetAPIError |
| Tools.DownloadHidesTemporaryUrl | google_meet_agent/tools.py:421-432 | a successful download whose data held a truthy s3url shows the fetched text as file_content and no s3url |
| Errors.Hierarchy | google_meet_agent/exceptions.py:4-87 | every error is a GoogleMeetAgentError; the GoogleMeetAPIErrors are exactly the API and rate-limit errors; an error is an instance of exactly its class, the root and, for a rate-limit error, GoogleMeetAPIError |
| Errors.StatusCode | google_meet_agent/exceptions.py:55-75 | a RateLimitError's status code is always 429 |
| Errors.OrDefault | google_meet_agent/exceptions.py:26 | an absent or empty message takes the default, any other is kept; the agent's constructor uses the same rule for an explicit key or entity id over its setting |
| Errors.AuthConfigNotFoundError | google_meet_agent/exceptions.py:21-26 | the message defaults when None or empty, and the cause is stored |
| Errors.ConnectionExpiredError | google_meet_agent/exceptions.py:41-43 | the message defaults when None or empty, and the cause is stored |
| Errors.NoConferencesError | google_meet_agent/exceptions.py:82-84 | the message defaults when None or empty, and the cause is stored |
| Errors.OAuthTimeoutError | google_meet_agent/exceptions.py:32-35 | the timeout and the cause are stored |
| Errors.GoogleMeetAPIError | google_meet_agent/exceptions.py:55-59 | the message, status code and cause are stored |
| Errors.RateLimitError | google_meet_agent/exceptions.py:65-76 | retry_after and the cause are stored, and the status code is 429 |
| Errors.RateLimitMessage | google_meet_agent/exceptions.py:71-74 | an explicit message (even empty) is kept; without one the default text is used, with " Retry after N seconds." only when retry_after is truthy |
| Errors.OAuthTimeoutMessageCarriesTimeout | google_meet_agent/exceptions.py:33 | the message starts with the fixed prefix and determines the timeout it embeds |
| Errors.RateLimitHintCarriesRetryAfter | google_meet_agent/exceptions.py:73-74 | the retry hint of a defaulted message determines retry_after |
| Values.DecimalRoundTrip | google_meet_agent/exceptions.py:33 | the decimal text of a number reads back as that number |
| Values.IntToDecimalInjective | google_meet_agent/exceptions.py:33 | different integers render as different decimal texts |
| Auth.FirstIntegration | google_meet_agent/auth.py:52-56 | the index found is the first integration whose appName equals the app name exactly, and none only when none does |
| Auth.IntegrationLookup | google_meet_agent/auth.py:37-69 | a non-empty memo is returned without listing; otherwise the first matching integration's id is returned and memoised; no match raises AuthConfigNotFoundError; an AuthConfigNotFoundError from the listing passes unchanged and any other failure is wrapped in one naming the app and the failure; a failure leaves the memo unchanged |
| Auth.IntegrationLookupMemoised | google_meet_agent/auth.py:46-56 | once a non-empty id has been found, every later lookup returns it whatever the listing holds |
| Auth.GoogleAuthManager.constructor | google_meet_agent/auth.py:26-35 | a new manager keeps its app name and has no memoised id |
| Auth.GoogleAuthManager.GetIntegrationId | google_meet_agent/auth.py:37-69 | the search loop returns and memoises exactly what the lookup specifies |
| Auth.ExistingConnection | google_meet_agent/auth.py:71-107 | a connection is found exactly when the listing succeeded and some account's appName (else app_name) equals the app's name, ignoring case; it is the first such account; a single account counts as a list of one |
| Auth.FirstConnection | google_meet_agent/auth.py:96-103 | the account found is the first that matches, and none is found only when none matches |
| Auth.GoogleAuthManager.GetExistingConnection | google_meet_agent/auth.py:80-107 | the scanning loop finds exactly the existing connection |
| Auth.InitiateOAuthResult | google_meet_agent/auth.py:126-160 | a lookup failure is re-raised; a request without a redirectUrl, or with an empty one, raises AuthConfigNotFoundError; a successful result is the initiated request and has a non-empty redirectUrl; other failures are wrapped as AuthConfigNotFoundError |
| Auth.GoogleAuthManager.InitiateOAuth | google_meet_agent/auth.py:109-160 | the method returns, and memoises, what the OAuth start specifies |
| Auth.WaitForConnection | google_meet_agent/auth.py:182-212 | a TypeError falls back to the call without the client; a falsy account raises OAuthTimeoutError(timeout); an OAuthTimeoutError passes unchanged; other failures are classified by lowered text: "timeout"/"timed out" is a timeout, else "expired" is an expiry, else a ComposioConnectionError, each with the failure as cause |
| Auth.ConnectionOutcome | google_meet_agent/auth.py:243-277 | no contract of its own: an existing connection, else the OAuth start followed by the wait; the two lemmas below state what it yields |
| Auth.ExistingConnectionShortCircuits | google_meet_agent/auth.py:243-249 | an existing connection is returned whatever the integration listing, initiation and wait would do |
| Auth.ConnectionFailureKinds | google_meet_agent/auth.py:219-277 | an `ensure_*` call raises only AuthConfigNotFoundError, OAuthTimeoutError, ConnectionExpiredError or ComposioConnectionError; a success is the existing connection or follows a successful OAuth start |
| Auth.EnsureConnection | google_meet_agent/auth.py:243-277 | the call with a fresh manager yields exactly the connection outcome |
| Auth.EnsureGoogleMeetConnection | google_meet_agent/auth.py:219-277 | the Google Meet entry point yields the connection outcome for "googlemeet" |
| Auth.EnsureGoogleDriveConnection | google_meet_agent/auth.py:280-338 | the Google Drive entry point yields the connection outcome for "googledrive" |
| Auth.CheckGoogleDriveConnection | google_meet_agent/auth.py:341-352 | true exactly when the listing succeeded and some account is a googledrive connection, ignoring case |
| Auth.FirstConnectionExists | google_meet_agent/auth.py:96-103 | a first matching account exists exactly when some account matches |
| Agent.ValidateSettings | google_meet_agent/agent.py:134-143 | a ConfigurationError exactly when a key is empty; the Composio key is checked first |
| Agent.GoogleMeetAgent.constructor | google_meet_agent/agent.py:119-130 | the keys and entity id are the explicit arguments or the settings, no client exists, and the agent is not set up |
| Agent.GoogleMeetAgent.Create | google_meet_agent/agent.py:101-143 | construction yields an agent exactly when validation raises nothing, and then both keys are non-empty |
| Agent.ExecuteTool | google_meet_agent/agent.py:203-226 | the wrapper never raises: it gives the call's result, or a dictionary of exactly the exception's type name and text |
| Agent.ToolUses | google_meet_agent/agent.py:261-262 | at most one call per block |
| Agent.ToolUsesMembers | google_meet_agent/agent.py:261-262 | exactly the tool_use blocks are collected |
| Agent.ToolUsesConcat | google_meet_agent/agent.py:261-262 | collecting tool_use blocks commutes with concatenation, so their order is block order |
| Agent.ToolResultsFor | google_meet_agent/agent.py:260-269 | there is one tool_result per tool_use block |
| Agent.ToolResultsForPointwise | google_meet_agent/agent.py:260-269 | the k-th tool_result is tagged with the k-th tool_use block's id and holds the wrapped result of that call |
| Agent.CollectToolResults | google_meet_agent/agent.py:259-269 | the inner loop builds exactly the tool results of the reply |
| Agent.Texts | google_meet_agent/agent.py:276-278 | at most one text per block |
| Agent.TextsMembers | google_meet_agent/agent.py:276-278 | exactly the texts of the text blocks are collected |
| Agent.TextsConcat | google_meet_agent/agent.py:276-278 | collecting texts commutes with concatenation, so the texts keep block order |
| Values.JoinAppend | google_meet_agent/agent.py:280 | joining one more part appends the separator and that part |
| Agent.FinalText | google_meet_agent/agent.py:276-280 | an end_turn reply without text gives "", and one with one text gives that text |
| Agent.FinalTextAppend | google_meet_agent/agent.py:276-280 | one more text block appends a newline and its text (or is the whole answer when it is the first text); any other block changes nothing |
| Agent.FinalTextExample | google_meet_agent/agent.py:276-280 | text blocks "Hello" and "world" around a tool_use block answer "Hello\nworld" |
| Agent.Continue | google_meet_agent/agent.py:240-286 | no contract of its own: one model call per turn, a tool turn appending two messages and recursing with one turn fewer; the four lemmas below state what it yields |
| Agent.ContinueResult | google_meet_agent/agent.py:240-286 | when every allowed call asked for tools, the budget is spent and the sentinel is returned; otherwise the run ends after one more model call on the final transcript, with that call's exception, the end_turn reply's newline-joined text, or the sentinel for any other stop reason |
| Agent.ContinueBounds | google_meet_agent/agent.py:240-286 | the loop makes at most the budget of model calls, and none only when the budget is zero; each tool turn adds two messages; earlier entries are never altered |
| Agent.ContinueAppendsToolTurns | google_meet_agent/agent.py:244-273 | every appended pair of messages is a tool turn: the model, shown exactly the transcript before it, asked for tools; its reply was appended as an assistant message and the results of its calls as a user message |
| Agent.AlwaysToolUseExhaustsBudget | google_meet_agent/agent.py:240-286 | a model that always asks for tools uses the whole budget and the loop returns the sentinel |
| Agent.AgentLoopShape | google_meet_agent/agent.py:238-286 | the transcript starts with the prompt as one user message and has two more messages per tool turn; at most max(max_turns, 0) model calls; a budget of zero or less returns the sentinel at once; an end_turn first reply returns its text |
| Agent.AgentLoop | google_meet_agent/agent.py:228-286 | no contract of its own: `Continue` from the prompt with the budget max(max_turns, 0); `Agent.AgentLoopShape` and `Agent.AgentLoopResult` state what it yields |
| Agent.AgentLoopResult | google_meet_agent/agent.py:228-286 | from the prompt: a spent budget returns the sentinel; otherwise the last model call's exception, its end_turn text, or the sentinel for any other stop reason is the result |
| Agent.RunAgentLoop | google_meet_agent/agent.py:228-286 | the loop returns exactly the conversation's result and leaves exactly its transcript |
| Agent.ResponseFor | google_meet_agent/agent.py:302-336 | success carries the text as data and raw response and no error; a failure carries no data and an error: the text of our own errors, "Claude API error: " plus the text for language-model API errors, and "Unexpected error: " plus the text otherwise |
| Agent.ErrorResponseEndsWithText | google_meet_agent/agent.py:313-336 | a failed response always ends with the exception's text |
| Agent.EffectiveMaxTurns | google_meet_agent/agent.py:299 | a max_turns of None or 0 falls back to the setting |
| Agent.ApiFailureReported | google_meet_agent/agent.py:221-226 | a GoogleMeetAPIError-class failure is reported to the model as "GoogleMeetAPIError" or "RateLimitError" |
| Agent.ComposioInvoker | google_meet_agent/agent.py:213-216 | no contract of its own: a call runs the retried `execute_google_meet_tool` and raises its error; `Agent.ComposioToolFailuresAreApiErrors` states what reaches the model |
| Agent.ComposioToolFailuresAreApiErrors | google_meet_agent/agent.py:213-226 | with the real invoker, a failed tool reaches the model as a GoogleMeetAPIError or a RateLimitError |
| Agent.SetupError | google_meet_agent/agent.py:155-196 | setup raises nothing exactly when the connection and the catalog load both succeed; what it raises is an AuthConfigNotFoundError, OAuthTimeoutError, ConnectionExpiredError or ComposioConnectionError |
| Agent.GoogleMeetAgent.Setup | google_meet_agent/agent.py:155-196 | an agent already set up is left untouched; otherwise the connection is ensured and the catalog loaded, the first failure is reported, and only a complete run stores the tools, creates the model client and marks the agent set up |
| Agent.SetupTwice | google_meet_agent/agent.py:167-169 | a second setup after a successful one reports nothing and keeps the first one's tools |
| Agent.GoogleMeetAgent.Query | google_meet_agent/agent.py:288-336 | a setup failure escapes; an agent already set up is left untouched; otherwise the agent's state afterwards is the state a setup leaves; after setup the response is the mapping of the conversation run with the effective turn budget |
| Agent.GoogleMeetAgent.ListAvailableTools | google_meet_agent/agent.py:397-412 | a setup failure escapes; an agent already set up is left untouched; otherwise the agent's state afterwards is the state a setup leaves; after setup the loaded tools are listed as `list_available_tools` lists them |

## Left out

- The integration platform SDK and the network are parameters of the model:
  the catalog, account, integration, execution and OAuth responses are given
  as values or functions.
- The SDK-generation sniffing (`_is_new_sdk`, the `hasattr` tests, the
  `Action` enum lookup and the `TypeError`/`AttributeError` fallback from
  `connected_accounts.list` to `connected_accounts.get`) is left out. Each
  response shape is one datatype variant instead.
- `fetch_file_content_from_url` (the HTTP GET and the UTF-8/Latin-1 decode)
  is a function from the URL value to the text it yields.
- The language model call (`messages.create`, the model name, `max_tokens`)
  is a function from the tools and transcript to a reply or an exception.
- Retry backoff timing (exponential waits) is not modelled, only the attempt
  count and which errors are retried.
- `get_system_prompt` is left out: it depends on the clock.
- Logging, `print` and the browser opening by `initiate_oauth` are I/O and
  are left out. So is the real blocking of the OAuth wait.
- The API keys matter only to settings validation (an empty key is a
  ConfigurationError); the model does not pass them to the services. The
  entity id and the `open_browser` flag are not modelled as inputs of the
  services; the scripted responses stand for what they return.
- The tool invoker is a function of the tool name and input. So two
  identical tool_use calls in one reply get the same result, and the model
  does not capture services whose answer changes between such calls.
- Tools.NormalisedSchema: returns the completed schema as a new value.
  `_convert_to_anthropic_format` inserts "type" and "properties" into the
  SDK's own schema dictionary in place; that mutation and its aliasing are
  not modelled.
- Tool results carry the value `json.dumps` would render, not its JSON text.
- `Values.PyStr` renders scalars and strings as `str()` does, but a list or
  dictionary only as a placeholder text.
- `Values.Lower` lower-cases ASCII letters only; Python's `str.lower` also
  folds non-ASCII letters.
- Tools.WithFetchedContent: returns the new data as a value; the in-place
  mutation of the SDK's result dictionary, and its aliasing when there is
  no "data" key, are not modelled.
- Tools.ShortDescription: for values that are not strings, both the
  exception type and its text follow one Python version (before 3.12).
  From 3.12 on, slicing a long dictionary raises a KeyError instead of a
  TypeError.
- Client construction (the `Composio(...)` and `Anthropic(...)` calls) is
  modelled as a flag on the agent; constructor failures are left out.
- `settings or get_settings()` is left out: the settings are always passed
  in, since configuration loading is not part of this model.
- The convenience methods `list_conferences`, `get_conference`,
  `get_participants` and `get_transcript` are left out: each only calls
  `query` with a fixed prompt.
- The CLI, configuration loading, package re-exports and scripts are not
  part of this model.
