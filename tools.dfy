/**
 * Tool catalog loading, tool invocation and error mapping
 * (google_meet_agent/tools.py).
 *
 * The SDK is an oracle: each attempt of a retried operation reads its own
 * scripted SDK responses, and the plain HTTP GET that resolves a temporary
 * download URL is a function from the URL value to the text it yields.
 */
module Tools {
  import opened Values
  import opened Errors
  import opened Sdk

  const GoogleMeetApp := "googlemeet"
  const GoogleDriveApp := "googledrive"
  const DriveToolsForNotes: seq<string> :=
    ["GOOGLEDRIVE_LIST_FILES", "GOOGLEDRIVE_DOWNLOAD_FILE", "GOOGLEDRIVE_GET_FILE_METADATA"]
  const DownloadFileTool := "GOOGLEDRIVE_DOWNLOAD_FILE"
  const DrivePrefix := "GOOGLEDRIVE_"
  const MeetPrefix := "GOOGLEMEET_"

  /** Both retried operations stop after this many attempts. */
  const MaxAttempts := 3

  /** Listed descriptions are cut to this many characters. */
  const MaxDescription := 100

  /** A tool in the language model's format; the fields hold whatever values the catalog gave. */
  datatype ToolSpec = ToolSpec(name: Value, description: Value, inputSchema: Value)

  function EmptySchema(): Value {
    Dict(map["type" := Str("object"), "properties" := Dict(map[])])
  }

  predicate SchemaComplete(s: Value) {
    s.Dict? && "type" in s.fields && "properties" in s.fields
  }

  // ------------------------------------------------------- normalisation

  /** `_extract_tool_list`: `items`, else `data`, else the list itself, else its elements, else nothing. */
  function ExtractToolList(r: CatalogResponse): (entries: seq<Entry>)
    ensures r.EntryList? ==> entries == r.entries
    ensures r.ResponseObject? && r.items.Some? ==> entries == r.items.value
    ensures r.ResponseObject? && r.items.None? && r.data.Some? ==> entries == r.data.value
    ensures r.ResponseObject? && r.items.None? && r.data.None? ==> entries == if r.iterated.Some? then r.iterated.value else []
  {
    match r
    case ResponseObject(items, data, iterated) =>
      if items.Some? then items.value
      else if data.Some? then data.value
      else if iterated.Some? then iterated.value
      else []
    case EntryList(entries) => entries
  }

  /** The inner dictionary of a `{"function": {...}}` entry. */
  function NestedFunction(f: map<string, Value>): Option<map<string, Value>> {
    if "function" in f && f["function"].Dict? then Some(f["function"].fields) else None
  }

  /** `_get_tool_name`. */
  function ToolName(e: Entry): (r: Value)
    ensures e.DictEntry? && NestedFunction(e.fields).Some? ==> r == GetOr(NestedFunction(e.fields).value, "name", Str(""))
    ensures e.DictEntry? && NestedFunction(e.fields).None? ==> r == GetOr(e.fields, "name", Str(""))
    ensures e.ObjectEntry? && e.nameAttr.Some? ==> r == e.nameAttr.value
    ensures e.ObjectEntry? && e.nameAttr.None? ==> r == Str(e.text)
  {
    match e
    case DictEntry(f) =>
      var nested := NestedFunction(f);
      if nested.Some? then GetOr(nested.value, "name", Str("")) else GetOr(f, "name", Str(""))
    case ObjectEntry(nameAttr, _, text) =>
      if nameAttr.Some? then nameAttr.value else Str(text)
  }

  /**
   * The schema `_convert_to_anthropic_format` settles on: a non-dictionary is
   * replaced by the empty object schema, a dictionary keeps all its keys and
   * gains "type" and "properties" only where they are missing.
   */
  function NormalisedSchema(raw: Value): (s: Value)
    ensures SchemaComplete(s)
    ensures !raw.Dict? ==> s == EmptySchema()
    ensures raw.Dict? ==> s.fields.Keys == raw.fields.Keys + {"type", "properties"}
    ensures raw.Dict? ==> forall k | k in raw.fields :: s.fields[k] == raw.fields[k]
    ensures raw.Dict? && "type" !in raw.fields ==> s.fields["type"] == Str("object")
    ensures raw.Dict? && "properties" !in raw.fields ==> s.fields["properties"] == Dict(map[])
  {
    if !raw.Dict? then EmptySchema()
    else
      var withType := if "type" in raw.fields then raw.fields else raw.fields["type" := Str("object")];
      var withProps := if "properties" in withType then withType else withType["properties" := Dict(map[])];
      Dict(withProps)
  }

  /** The schema candidates, in fallback order. */
  function RawSchema(f: map<string, Value>): (r: Value)
    ensures Truthy(Get(f, "input_schema")) ==> r == f["input_schema"]
    ensures !Truthy(Get(f, "input_schema")) && Truthy(Get(f, "inputSchema")) ==> r == f["inputSchema"]
    ensures !Truthy(Get(f, "input_schema")) && !Truthy(Get(f, "inputSchema")) && Truthy(Get(f, "parameters")) ==>
              r == f["parameters"]
    ensures !Truthy(Get(f, "input_schema")) && !Truthy(Get(f, "inputSchema")) && !Truthy(Get(f, "parameters")) ==>
              r == Dict(map[])
  {
    Or(Get(f, "input_schema"), Or(Get(f, "inputSchema"), Or(Get(f, "parameters"), Dict(map[]))))
  }

  /**
   * `_convert_to_anthropic_format`: the name falls back name, slug, action,
   * "unknown"; the description falls back description, desc, ""; the
   * schema falls back input_schema, inputSchema, parameters, {} and is then
   * completed.
   */
  function ConvertToAnthropicFormat(f: map<string, Value>): (t: ToolSpec)
    ensures Truthy(t.name)
    ensures Truthy(Get(f, "name")) ==> t.name == f["name"]
    ensures !Truthy(Get(f, "name")) && Truthy(Get(f, "slug")) ==> t.name == f["slug"]
    ensures !Truthy(Get(f, "name")) && !Truthy(Get(f, "slug")) && Truthy(Get(f, "action")) ==> t.name == f["action"]
    ensures !Truthy(Get(f, "name")) && !Truthy(Get(f, "slug")) && !Truthy(Get(f, "action")) ==> t.name == Str("unknown")
    ensures Truthy(Get(f, "description")) ==> t.description == f["description"]
    ensures !Truthy(Get(f, "description")) && Truthy(Get(f, "desc")) ==> t.description == f["desc"]
    ensures !Truthy(Get(f, "description")) && !Truthy(Get(f, "desc")) ==> t.description == Str("")
    ensures SchemaComplete(t.inputSchema)
    ensures t.inputSchema == NormalisedSchema(RawSchema(f))
  {
    var name := Or(Get(f, "name"), Or(Get(f, "slug"), Or(Get(f, "action"), Str("unknown"))));
    var description := Or(Get(f, "description"), Or(Get(f, "desc"), Str("")));
    ToolSpec(name, description, NormalisedSchema(RawSchema(f)))
  }

  predicate IsNested(e: Entry) {
    e.DictEntry? && NestedFunction(e.fields).Some?
  }

  /**
   * `_tool_to_anthropic`. A nested "function" entry takes name, description
   * and parameters from the inner dictionary, each defaulting only when its
   * key is absent, and its parameters are passed on as they are; every other
   * shape goes through `ConvertToAnthropicFormat` or, for an object with no
   * dictionary view, is named by its text.
   */
  function ToolToAnthropic(e: Entry): (t: ToolSpec)
    ensures IsNested(e) ==>
              var func := NestedFunction(e.fields).value;
              t == ToolSpec(GetOr(func, "name", Str("unknown")), GetOr(func, "description", Str("")),
                            GetOr(func, "parameters", EmptySchema()))
    ensures e.DictEntry? && !IsNested(e) ==> t == ConvertToAnthropicFormat(e.fields)
    ensures e.ObjectEntry? && e.asDict.Some? ==> t == ConvertToAnthropicFormat(e.asDict.value)
    ensures e.ObjectEntry? && e.asDict.None? ==> t == ToolSpec(Str(e.text), Str(""), EmptySchema())
    ensures !IsNested(e) ==> SchemaComplete(t.inputSchema)
  {
    match e
    case DictEntry(f) =>
      var nested := NestedFunction(f);
      if nested.Some? then
        var func := nested.value;
        ToolSpec(GetOr(func, "name", Str("unknown")), GetOr(func, "description", Str("")),
                 GetOr(func, "parameters", EmptySchema()))
      else ConvertToAnthropicFormat(f)
    case ObjectEntry(_, asDict, text) =>
      if asDict.Some? then ConvertToAnthropicFormat(asDict.value)
      else ToolSpec(Str(text), Str(""), EmptySchema())
  }

  /** A nested entry's parameters are not completed: a non-dictionary schema reaches the model as it is. */
  lemma NestedParametersPassThrough(v: Value)
    ensures ToolToAnthropic(DictEntry(map["function" := Dict(map["parameters" := v])])).inputSchema == v
  {
  }

  // ----------------------------------------------------- catalog filtering

  /** A Drive entry is kept when its name is truthy and on the allow-list. */
  predicate IsDriveNoteTool(e: Entry): (kept: bool)
    ensures kept <==> ToolName(e).Str? && ToolName(e).s != "" && ToolName(e).s in DriveToolsForNotes
  {
    var name := ToolName(e);
    Truthy(name) && name.Str? && name.s in DriveToolsForNotes
  }

  /** Every Meet entry, converted. */
  function MeetSpecs(entries: seq<Entry>): (specs: seq<ToolSpec>)
    ensures |specs| == |entries|
  {
    MapSeq(ToolToAnthropic, entries)
  }

  /** The allow-listed Drive entries, converted. */
  function DriveSpecs(entries: seq<Entry>): (specs: seq<ToolSpec>)
    ensures |specs| <= |entries|
  {
    FilterMap(IsDriveNoteTool, ToolToAnthropic, entries)
  }

  /**
   * The Meet tools are every entry converted, in catalog order; the Drive
   * tools are exactly the allow-listed entries, converted.
   */
  lemma CatalogSpecs(meet: seq<Entry>, drive: seq<Entry>)
    ensures |MeetSpecs(meet)| == |meet|
    ensures forall k | 0 <= k < |meet| :: MeetSpecs(meet)[k] == ToolToAnthropic(meet[k])
    ensures |DriveSpecs(drive)| <= |drive|
    ensures forall t | t in DriveSpecs(drive) :: exists e | e in drive :: IsDriveNoteTool(e) && t == ToolToAnthropic(e)
    ensures forall e | e in drive && IsDriveNoteTool(e) :: ToolToAnthropic(e) in DriveSpecs(drive)
  {
    MapSeqPointwise(ToolToAnthropic, meet);
    FilterMapMembers(IsDriveNoteTool, ToolToAnthropic, drive);
  }

  /**
   * Both conversions work entry by entry: converting two runs of entries
   * is converting each and concatenating, so the results keep catalog order
   * and nothing is sorted, merged or dropped as a duplicate.
   */
  lemma {:induction false} SpecsConcat(a: seq<Entry>, b: seq<Entry>)
    ensures MeetSpecs(a + b) == MeetSpecs(a) + MeetSpecs(b)
    ensures DriveSpecs(a + b) == DriveSpecs(a) + DriveSpecs(b)
    decreases |b|
  {
    if b == [] {
      assert a + b == a;
    } else {
      var init := b[..|b| - 1];
      assert (a + b)[..|a + b| - 1] == a + init;
      SpecsConcat(a, init);
    }
  }

  /** Two identical allow-listed Drive entries both reach the model. */
  lemma DriveDuplicatesKept(e: Entry)
    requires IsDriveNoteTool(e)
    ensures DriveSpecs([e, e]) == [ToolToAnthropic(e), ToolToAnthropic(e)]
  {
    assert [e][..0] == [];
    assert DriveSpecs([e]) == [ToolToAnthropic(e)];
    SpecsConcat([e], [e]);
    assert [e] + [e] == [e, e];
  }

  /** The SDK's answers to one attempt of `get_google_meet_tools`: the Meet listing, then the Drive listing. */
  datatype CatalogFetch = CatalogFetch(meet: Result<CatalogResponse, Exc>, drive: Result<CatalogResponse, Exc>)

  /**
   * One attempt of `get_google_meet_tools`: all Meet tools, then the
   * allow-listed Drive tools. A failed Drive listing is swallowed; a failed
   * Meet listing becomes a ComposioConnectionError.
   */
  function CatalogAttempt(fetch: CatalogFetch, includeDrive: bool): (r: Result<seq<ToolSpec>, AgentError>)
    ensures r.Failure? <==> fetch.meet.Failure?
    ensures r.Failure? ==> r.error.kind == ComposioConnection && r.error.cause == Some(fetch.meet.error)
                           && r.error.message == "Failed to fetch tools: " + ExcText(fetch.meet.error)
  {
    match fetch.meet
    case Failure(e) => Failure(ComposioConnectionError("Failed to fetch tools: " + ExcText(e), Some(e)))
    case Success(resp) =>
      var meet := MeetSpecs(ExtractToolList(resp));
      if includeDrive && fetch.drive.Success? then
        Success(meet + DriveSpecs(ExtractToolList(fetch.drive.value)))
      else Success(meet)
  }

  /**
   * A successful attempt lists the Meet tools first, all of them; the
   * allow-listed Drive tools follow when Drive was asked for and listed, and
   * nothing follows otherwise.
   */
  lemma CatalogAttemptContents(fetch: CatalogFetch, includeDrive: bool)
    requires fetch.meet.Success?
    ensures var r := CatalogAttempt(fetch, includeDrive);
            var meet := MeetSpecs(ExtractToolList(fetch.meet.value));
            && r.Success? && |meet| <= |r.value| && r.value[..|meet|] == meet
            && (includeDrive && fetch.drive.Success? ==>
                  r.value[|meet|..] == DriveSpecs(ExtractToolList(fetch.drive.value)))
            && (!includeDrive || fetch.drive.Failure? ==> r.value == meet)
  {
  }

  /** `get_google_meet_tools` without its retry decorator, as the append loops build the list. */
  method GetGoogleMeetTools(fetch: CatalogFetch, includeDrive: bool) returns (r: Result<seq<ToolSpec>, AgentError>)
    ensures r == CatalogAttempt(fetch, includeDrive)
  {
    if fetch.meet.Failure? {
      var e := fetch.meet.error;
      return Failure(ComposioConnectionError("Failed to fetch tools: " + ExcText(e), Some(e)));
    }
    var anthropicTools: seq<ToolSpec> := [];
    var meetList := ExtractToolList(fetch.meet.value);
    var i := 0;
    while i < |meetList|
      invariant 0 <= i <= |meetList|
      invariant anthropicTools == MeetSpecs(meetList[..i])
    {
      SpecsStep(meetList, i);
      anthropicTools := anthropicTools + [ToolToAnthropic(meetList[i])];
      i := i + 1;
    }
    assert meetList[..i] == meetList;
    if includeDrive && fetch.drive.Success? {
      var driveList := ExtractToolList(fetch.drive.value);
      var j := 0;
      while j < |driveList|
        invariant 0 <= j <= |driveList|
        invariant anthropicTools == MeetSpecs(meetList) + DriveSpecs(driveList[..j])
      {
        SpecsStep(driveList, j);
        if IsDriveNoteTool(driveList[j]) {
          anthropicTools := anthropicTools + [ToolToAnthropic(driveList[j])];
        }
        j := j + 1;
      }
      assert driveList[..j] == driveList;
    }
    return Success(anthropicTools);
  }

  /** Converting one more entry extends both conversions by at most that entry. */
  lemma SpecsStep(entries: seq<Entry>, i: nat)
    requires i < |entries|
    ensures MeetSpecs(entries[..i + 1]) == MeetSpecs(entries[..i]) + [ToolToAnthropic(entries[i])]
    ensures DriveSpecs(entries[..i + 1]) ==
              DriveSpecs(entries[..i]) + if IsDriveNoteTool(entries[i]) then [ToolToAnthropic(entries[i])] else []
  {
    assert entries[..i + 1][..i] == entries[..i];
  }

  // ----------------------------------------------------------------- retry

  /** The outcome of a retried operation and how many attempts it took. */
  datatype Attempted<T> = Attempted(outcome: Result<T, AgentError>, attempts: nat)

  /**
   * Run attempts from `attempt` on: stop at a success, at an error that is
   * not retryable, or after the last attempt, and re-raise the last error.
   * Backoff delays are not modelled.
   */
  function RetryFrom<T>(run: nat -> Result<T, AgentError>, retryable: AgentError -> bool, attempt: nat): (r: Attempted<T>)
    requires attempt < MaxAttempts
    ensures attempt < r.attempts <= MaxAttempts
    ensures r.outcome == run(r.attempts - 1)
    ensures forall k | attempt <= k < r.attempts - 1 :: run(k).Failure? && retryable(run(k).error)
    ensures r.outcome.Failure? && retryable(r.outcome.error) ==> r.attempts == MaxAttempts
    decreases MaxAttempts - attempt
  {
    var o := run(attempt);
    if o.Success? || !retryable(o.error) || attempt + 1 == MaxAttempts then Attempted(o, attempt + 1)
    else RetryFrom(run, retryable, attempt + 1)
  }

  function Retry<T>(run: nat -> Result<T, AgentError>, retryable: AgentError -> bool): (r: Attempted<T>)
    ensures 1 <= r.attempts <= MaxAttempts
    ensures r.outcome == run(r.attempts - 1)
    ensures forall k | 0 <= k < r.attempts - 1 :: run(k).Failure? && retryable(run(k).error)
    ensures r.outcome.Success? || !retryable(r.outcome.error) || r.attempts == MaxAttempts
  {
    RetryFrom(run, retryable, 0)
  }

  predicate IsCatalogRetryable(e: AgentError) {
    IsInstance(Own(e), ComposioConnectionErrorClass)
  }

  /** `get_google_meet_tools` with its decorator: retried on ComposioConnectionError. */
  function GetGoogleMeetToolsRetried(fetches: nat -> CatalogFetch, includeDrive: bool): Attempted<seq<ToolSpec>> {
    Retry(CatalogRun(fetches, includeDrive), IsCatalogRetryable)
  }

  /** Attempt k of the catalog load reads the k-th scripted listings. */
  function CatalogRun(fetches: nat -> CatalogFetch, includeDrive: bool): nat -> Result<seq<ToolSpec>, AgentError> {
    (k: nat) => CatalogAttempt(fetches(k), includeDrive)
  }

  lemma CatalogRunAt(fetches: nat -> CatalogFetch, includeDrive: bool, k: nat)
    ensures CatalogRun(fetches, includeDrive)(k) == CatalogAttempt(fetches(k), includeDrive)
  {
  }

  /**
   * Every failed Meet listing is retried: the catalog is attempted until one
   * Meet listing succeeds, at most three times, and the call fails only when
   * all three Meet listings failed.
   */
  lemma {:induction false} CatalogRetriesMeetFailures(fetches: nat -> CatalogFetch, includeDrive: bool)
    ensures var r := GetGoogleMeetToolsRetried(fetches, includeDrive);
            && (forall k | 0 <= k < r.attempts - 1 :: fetches(k).meet.Failure?)
            && (r.outcome.Success? <==> fetches(r.attempts - 1).meet.Success?)
            && (r.outcome.Failure? ==> r.attempts == MaxAttempts && r.outcome.error.kind == ComposioConnection)
            && (fetches(0).meet.Success? ==> r.attempts == 1)
  {
    var run := CatalogRun(fetches, includeDrive);
    assert GetGoogleMeetToolsRetried(fetches, includeDrive) == Retry(run, IsCatalogRetryable);
    forall k: nat
      ensures run(k).Failure? <==> fetches(k).meet.Failure?
      ensures run(k).Failure? ==> IsCatalogRetryable(run(k).error) && run(k).error.kind == ComposioConnection
    {
      CatalogRunStep(fetches, includeDrive, k);
    }
  }

  /** The retried catalog is the outcome of its last attempt, one of at most three. */
  lemma CatalogRetriedOutcome(fetches: nat -> CatalogFetch, includeDrive: bool)
    ensures var r := GetGoogleMeetToolsRetried(fetches, includeDrive);
            && 1 <= r.attempts <= MaxAttempts
            && r.outcome == CatalogAttempt(fetches(r.attempts - 1), includeDrive)
  {
    CatalogRunAt(fetches, includeDrive, GetGoogleMeetToolsRetried(fetches, includeDrive).attempts - 1);
  }

  /** Attempt k fails exactly when its Meet listing fails, and then with a retryable ComposioConnectionError. */
  lemma CatalogRunStep(fetches: nat -> CatalogFetch, includeDrive: bool, k: nat)
    ensures var o := CatalogRun(fetches, includeDrive)(k);
            && (o.Failure? <==> fetches(k).meet.Failure?)
            && (o.Failure? ==> IsCatalogRetryable(o.error) && o.error.kind == ComposioConnection)
  {
    assert CatalogRun(fetches, includeDrive)(k) == CatalogAttempt(fetches(k), includeDrive);
  }

  // -------------------------------------------------------------- listing

  /** A listed tool: its name and shortened description. */
  datatype ToolInfo = ToolInfo(name: Value, description: Value)

  /** A tool as the dictionary the agent keeps. */
  function ToolDict(t: ToolSpec): map<string, Value> {
    map["name" := t.name, "description" := t.description, "input_schema" := t.inputSchema]
  }

  function TypeError(text: string): Exc {
    Foreign("TypeError", text, false)
  }

  /**
   * A description as listed: a string longer than 100 characters becomes
   * its first 97 followed by "..."; `len` or the slice-and-concatenate
   * raises on the values that do not support them.
   */
  function ShortDescription(d: Value): (r: Result<Value, Exc>)
    ensures r.Failure? <==> (d.Null? || d.Bool? || d.Int? || (d.List? && |d.items| > MaxDescription)
                             || (d.Dict? && |d.fields| > MaxDescription))
    ensures d.Str? ==> r.Success? && r.value.Str? && |r.value.s| <= MaxDescription
    ensures d.Str? && |d.s| <= MaxDescription ==> r.value == d
    ensures d.Str? && |d.s| > MaxDescription ==> r.value.s == d.s[..97] + "..." && d.s[..97] <= d.s
    ensures r.Success? && !d.Str? ==> r.value == d
  {
    match d
    case Str(s) => if |s| > MaxDescription then Success(Str(s[..97] + "...")) else Success(d)
    case List(xs) =>
      if |xs| > MaxDescription then Failure(TypeError("can only concatenate list (not \"str\") to list"))
      else Success(d)
    case Dict(m) =>
      if |m| > MaxDescription then Failure(TypeError("unhashable type: 'slice'")) else Success(d)
    case _ => Failure(TypeError("object of type '" + TypeNameOf(d) + "' has no len()"))
  }

  /** One listed tool; a missing name or description takes its default. */
  function ListedEntry(tool: map<string, Value>): (r: Result<ToolInfo, Exc>)
    ensures r.Success? ==> r.value.name == GetOr(tool, "name", Str("unknown"))
    ensures "description" !in tool ==> r == Success(ToolInfo(GetOr(tool, "name", Str("unknown")), Str("No description")))
    ensures "description" in tool && tool["description"].Str? ==>
              r.Success? && r.value.description.Str? && |r.value.description.s| <= MaxDescription
  {
    var name := GetOr(tool, "name", Str("unknown"));
    var description := GetOr(tool, "description", Str("No description"));
    match ShortDescription(description)
    case Success(d) => Success(ToolInfo(name, d))
    case Failure(e) => Failure(e)
  }

  /** Entry k raises e, and every entry before it lists. */
  predicate FailsFirstAt(tools: seq<map<string, Value>>, k: int, e: Exc) {
    0 <= k < |tools| && ListedEntry(tools[k]) == Failure(e) && forall j | 0 <= j < k :: ListedEntry(tools[j]).Success?
  }

  /** `list_available_tools` as a function: entry by entry, stopping at the first exception. */
  function ListedTools(tools: seq<map<string, Value>>): (r: Result<seq<ToolInfo>, Exc>)
    ensures r.Success? ==> |r.value| == |tools|
  {
    if tools == [] then Success([])
    else
      match ListedTools(tools[..|tools| - 1])
      case Failure(e) => Failure(e)
      case Success(listed) =>
        match ListedEntry(tools[|tools| - 1])
        case Failure(e) => Failure(e)
        case Success(info) => Success(listed + [info])
  }

  /**
   * Listing succeeds exactly when every entry lists, and then gives each
   * entry's listing in order.
   */
  lemma {:induction false} ListedToolsSucceeds(tools: seq<map<string, Value>>)
    ensures ListedTools(tools).Success? <==> forall k | 0 <= k < |tools| :: ListedEntry(tools[k]).Success?
    ensures ListedTools(tools).Success? ==>
              forall k | 0 <= k < |tools| :: ListedTools(tools).value[k] == ListedEntry(tools[k]).value
  {
    if tools != [] {
      var init := tools[..|tools| - 1];
      assert forall k | 0 <= k < |init| :: init[k] == tools[k];
      ListedToolsSucceeds(init);
    }
  }

  /** A failed listing raises what the first failing entry raised. */
  lemma {:induction false} ListedToolsFailsFirst(tools: seq<map<string, Value>>)
    requires ListedTools(tools).Failure?
    ensures exists k :: FailsFirstAt(tools, k, ListedTools(tools).error)
  {
    var init := tools[..|tools| - 1];
    assert forall k | 0 <= k < |init| :: init[k] == tools[k];
    if ListedTools(init).Failure? {
      ListedToolsFailsFirst(init);
      var k :| FailsFirstAt(init, k, ListedTools(init).error);
      assert FailsFirstAt(tools, k, ListedTools(tools).error);
    } else {
      ListedToolsSucceeds(init);
      assert FailsFirstAt(tools, |tools| - 1, ListedTools(tools).error);
    }
  }

  /** `list_available_tools`, with its append loop. */
  method ListAvailableTools(tools: seq<map<string, Value>>) returns (r: Result<seq<ToolInfo>, Exc>)
    ensures r == ListedTools(tools)
  {
    var result: seq<ToolInfo> := [];
    var i := 0;
    while i < |tools|
      invariant 0 <= i <= |tools|
      invariant ListedTools(tools[..i]) == Success(result)
    {
      assert tools[..i + 1][..i] == tools[..i];
      var entry := ListedEntry(tools[i]);
      if entry.Failure? {
        assert ListedTools(tools[..i + 1]) == Failure(entry.error);
        ListedToolsFailurePersists(tools, i + 1, |tools|);
        assert tools[..|tools|] == tools;
        return Failure(entry.error);
      }
      result := result + [entry.value];
      i := i + 1;
    }
    assert tools[..i] == tools;
    return Success(result);
  }

  /** Once a prefix of the list fails, every longer prefix fails the same way. */
  lemma {:induction false} ListedToolsFailurePersists(tools: seq<map<string, Value>>, i: nat, j: nat)
    requires i <= j <= |tools| && ListedTools(tools[..i]).Failure?
    ensures ListedTools(tools[..j]) == ListedTools(tools[..i])
    decreases j - i
  {
    if i < j {
      assert tools[..i + 1][..i] == tools[..i];
      ListedToolsFailurePersists(tools, i + 1, j);
    }
  }

  // ---------------------------------------------------- account selection

  /** `get_app_name`: `toolkit.slug` when present, else `appName or app_name`. */
  function AppNameOf(a: Account): string {
    if a.toolkitSlug.Some? then a.toolkitSlug.value
    else if a.appName != "" then a.appName
    else a.appNameSnake
  }

  predicate NamedFor(a: Account, lowered: string) {
    Lower(AppNameOf(a)) == lowered
  }

  predicate IsFirstFor(accs: seq<Account>, i: int, lowered: string) {
    0 <= i < |accs| && NamedFor(accs[i], lowered) && forall j | 0 <= j < i :: !NamedFor(accs[j], lowered)
  }

  predicate NoneFor(accs: seq<Account>, lowered: string) {
    forall j | 0 <= j < |accs| :: !NamedFor(accs[j], lowered)
  }

  /** The index of the first account whose lowered app name is `lowered`. */
  function FirstFor(accs: seq<Account>, lowered: string): (r: Option<nat>)
    ensures r.Some? ==> IsFirstFor(accs, r.value, lowered)
    ensures r.None? ==> NoneFor(accs, lowered)
  {
    if accs == [] then None
    else if NamedFor(accs[0], lowered) then Some(0)
    else
      var rest := FirstFor(accs[1..], lowered);
      if rest.Some? then Some(rest.value + 1) else None
  }

  predicate TruthyText(s: Option<string>) {
    s.Some? && s.value != ""
  }

  /**
   * `get_connected_account_id`: no accounts (or an exception) gives None;
   * otherwise the first account of the requested app, compared
   * case-insensitively, else the first "googlemeet" account, else the first
   * account of all.
   */
  function SelectAccount(lookup: AccountsLookup, app: Option<string>): (r: Option<string>)
    ensures r.None? <==> lookup.LookupRaised? || AccountsOf(lookup) == []
    ensures r.Some? ==> exists i | 0 <= i < |AccountsOf(lookup)| :: AccountsOf(lookup)[i].id == r.value
    ensures !lookup.LookupRaised? && TruthyText(app) ==>
              forall i | IsFirstFor(AccountsOf(lookup), i, Lower(app.value)) :: r == Some(AccountsOf(lookup)[i].id)
    ensures !lookup.LookupRaised? && (!TruthyText(app) || NoneFor(AccountsOf(lookup), Lower(app.value))) ==>
              forall i | IsFirstFor(AccountsOf(lookup), i, GoogleMeetApp) :: r == Some(AccountsOf(lookup)[i].id)
    ensures (!lookup.LookupRaised? && AccountsOf(lookup) != []
             && (!TruthyText(app) || NoneFor(AccountsOf(lookup), Lower(app.value)))
             && NoneFor(AccountsOf(lookup), GoogleMeetApp)) ==> r == Some(AccountsOf(lookup)[0].id)
  {
    if lookup.LookupRaised? then None
    else
      var accs := AccountsOf(lookup);
      if accs == [] then None
      else
        var requested := if TruthyText(app) then FirstFor(accs, Lower(app.value)) else None;
        if requested.Some? then Some(accs[requested.value].id)
        else
          var meet := FirstFor(accs, GoogleMeetApp);
          if meet.Some? then Some(accs[meet.value].id) else Some(accs[0].id)
  }

  /** A requested app with no account of its own still yields some other account's id. */
  lemma AbsentAppFallsBack(lookup: AccountsLookup, app: string)
    requires !lookup.LookupRaised? && AccountsOf(lookup) != []
    requires app != "" && NoneFor(AccountsOf(lookup), Lower(app))
    ensures SelectAccount(lookup, Some(app)).Some?
    ensures exists i | 0 <= i < |AccountsOf(lookup)| ::
              SelectAccount(lookup, Some(app)) == Some(AccountsOf(lookup)[i].id) && !NamedFor(AccountsOf(lookup)[i], Lower(app))
  {
    var accs := AccountsOf(lookup);
    var meet := FirstFor(accs, GoogleMeetApp);
    if meet.Some? {
      assert SelectAccount(lookup, Some(app)) == Some(accs[meet.value].id);
      assert !NamedFor(accs[meet.value], Lower(app));
    } else {
      assert SelectAccount(lookup, Some(app)) == Some(accs[0].id);
      assert !NamedFor(accs[0], Lower(app));
    }
  }

  /** `get_connected_account_id`, with its scanning loops. */
  method ConnectedAccountId(lookup: AccountsLookup, app: Option<string>) returns (r: Option<string>)
    ensures r == SelectAccount(lookup, app)
  {
    if lookup.LookupRaised? {
      return None;
    }
    var accounts := AccountsOf(lookup);
    if accounts == [] {
      return None;
    }
    if TruthyText(app) {
      var wanted := Lower(app.value);
      var i := 0;
      while i < |accounts|
        invariant 0 <= i <= |accounts|
        invariant forall j | 0 <= j < i :: !NamedFor(accounts[j], wanted)
      {
        if Lower(AppNameOf(accounts[i])) == wanted {
          assert IsFirstFor(accounts, i, wanted);
          return Some(accounts[i].id);
        }
        i := i + 1;
      }
    }
    var k := 0;
    while k < |accounts|
      invariant 0 <= k <= |accounts|
      invariant forall j | 0 <= j < k :: !NamedFor(accounts[j], GoogleMeetApp)
    {
      if Lower(AppNameOf(accounts[k])) == GoogleMeetApp {
        assert IsFirstFor(accounts, k, GoogleMeetApp);
        return Some(accounts[k].id);
      }
      k := k + 1;
    }
    return Some(accounts[0].id);
  }

  /** `get_connected_account_for_tool`: the app whose account a tool needs, by the tool name's prefix. */
  function AppForTool(slug: string): (app: Option<string>)
    ensures StartsWith(slug, DrivePrefix) ==> app == Some(GoogleDriveApp)
    ensures !StartsWith(slug, DrivePrefix) && StartsWith(slug, MeetPrefix) ==> app == Some(GoogleMeetApp)
    ensures !StartsWith(slug, DrivePrefix) && !StartsWith(slug, MeetPrefix) ==> app.None?
  {
    if StartsWith(slug, DrivePrefix) then Some(GoogleDriveApp)
    else if StartsWith(slug, MeetPrefix) then Some(GoogleMeetApp)
    else None
  }

  function AccountForTool(lookup: AccountsLookup, slug: string): (r: Option<string>)
    ensures StartsWith(slug, DrivePrefix) ==> r == SelectAccount(lookup, Some(GoogleDriveApp))
    ensures !StartsWith(slug, DrivePrefix) && StartsWith(slug, MeetPrefix) ==> r == SelectAccount(lookup, Some(GoogleMeetApp))
    ensures !StartsWith(slug, DrivePrefix) && !StartsWith(slug, MeetPrefix) ==> r == SelectAccount(lookup, None)
  {
    SelectAccount(lookup, AppForTool(slug))
  }

  // ------------------------------------------------------------ execution

  /** The SDK's answers to one attempt of `execute_google_meet_tool`, and the URL fetch. */
  datatype ExecEnv = ExecEnv(accounts: AccountsLookup, response: Result<ExecResult, Exc>, fetch: Value -> string)

  const MeetNotConnectedMessage := "No active Google Meet connection found. Please run setup first."
  const DriveNotConnectedMessage := "No active Google Drive connection found. Please set up Google Drive integration."
  const PermissionDeniedMessage := "Permission denied. Ensure you have a Google Workspace account with Meet API access."

  /** The 401 raised when no usable account id was found. */
  function NoConnectionError(slug: string): (e: AgentError)
    ensures e.kind == GoogleMeetApi(Some(401))
    ensures e.message == if StartsWith(slug, DrivePrefix) then DriveNotConnectedMessage else MeetNotConnectedMessage
  {
    GoogleMeetAPIError(if StartsWith(slug, DrivePrefix) then DriveNotConnectedMessage else MeetNotConnectedMessage,
                       Some(401), None)
  }

  predicate RateLimitIndicated(msg: string) { Contains(msg, "429") || Contains(msg, "rate limit") }
  predicate PermissionIndicated(msg: string) { Contains(msg, "403") || Contains(msg, "permission") }
  predicate NotFoundIndicated(msg: string) { Contains(msg, "404") || Contains(msg, "not found") }

  /**
   * The `except` clauses of `execute_google_meet_tool`: a GoogleMeetAPIError
   * (rate-limit errors included) passes unchanged; anything else is
   * classified by its lowered text in the order rate limit, permission, not
   * found, generic.
   */
  function ClassifyFailure(slug: string, e: Exc): (r: AgentError)
    ensures IsInstance(Own(r), GoogleMeetAPIErrorClass)
    ensures IsInstance(e, GoogleMeetAPIErrorClass) ==> r == e.err
    ensures !IsInstance(e, GoogleMeetAPIErrorClass) ==>
              var msg := Lower(ExcText(e));
              && r.cause == Some(e)
              && (r.kind.RateLimit? <==> RateLimitIndicated(msg))
              && (r.kind == GoogleMeetApi(Some(403)) <==> !RateLimitIndicated(msg) && PermissionIndicated(msg))
              && (r.kind == GoogleMeetApi(Some(404)) <==>
                    !RateLimitIndicated(msg) && !PermissionIndicated(msg) && NotFoundIndicated(msg))
              && (r.kind == GoogleMeetApi(None) <==>
                    !RateLimitIndicated(msg) && !PermissionIndicated(msg) && !NotFoundIndicated(msg))
    ensures !IsInstance(e, GoogleMeetAPIErrorClass) && r.kind.RateLimit? ==>
              r == RateLimitError(None, None, Some(e)) && r.message == RateLimitDefaultMessage
    ensures !IsInstance(e, GoogleMeetAPIErrorClass) && r.kind == GoogleMeetApi(Some(404)) ==>
              r.message == "Resource not found: " + slug
    ensures !IsInstance(e, GoogleMeetAPIErrorClass) && r.kind == GoogleMeetApi(None) ==>
              r.message == "Failed to execute " + slug + ": " + ExcText(e)
  {
    if IsInstance(e, GoogleMeetAPIErrorClass) then e.err
    else
      var msg := Lower(ExcText(e));
      if RateLimitIndicated(msg) then RateLimitError(None, None, Some(e))
      else if PermissionIndicated(msg) then GoogleMeetAPIError(PermissionDeniedMessage, Some(403), Some(e))
      else if NotFoundIndicated(msg) then GoogleMeetAPIError("Resource not found: " + slug, Some(404), Some(e))
      else GoogleMeetAPIError("Failed to execute " + slug + ": " + ExcText(e), None, Some(e))
  }

  /** A successful call's result: a dictionary of exactly "success" (True) and "data". */
  predicate IsEnvelope(v: Value) {
    v.Dict? && v.fields.Keys == {"success", "data"} && v.fields["success"] == Bool(true)
  }

  function SuccessEnvelope(data: Value): (v: Value)
    ensures IsEnvelope(v) && v.fields["data"] == data
  {
    Dict(map["success" := Bool(true), "data" := data])
  }

  /** What calling `.get` on a value that is not a dictionary raises. */
  function NoGetAttribute(v: Value): Exc {
    Foreign("AttributeError", "'" + TypeNameOf(v) + "' object has no attribute 'get'", false)
  }

  /**
   * The download special case: when `downloaded_file_content` holds a truthy
   * `s3url`, the text fetched from it is added as `file_content`,
   * `content_fetched` becomes True and `s3url` is removed; every other key,
   * at both levels, is left as it was.
   */
  function WithFetchedContent(data: Value, fetch: Value -> string): (r: Result<Value, Exc>)
    ensures !data.Dict? ==> r == Failure(NoGetAttribute(data))
    ensures data.Dict? && "downloaded_file_content" in data.fields && !data.fields["downloaded_file_content"].Dict? ==>
              r == Failure(NoGetAttribute(data.fields["downloaded_file_content"]))
    ensures r.Success? ==> r.value.Dict?
    ensures r.Success? && "downloaded_file_content" in r.value.fields ==>
              var d := r.value.fields["downloaded_file_content"];
              d.Dict? && (Truthy(Get(d.fields, "s3url")) ==> r.value == data)
    ensures data.Dict? && "downloaded_file_content" in data.fields && data.fields["downloaded_file_content"].Dict?
            && Truthy(Get(data.fields["downloaded_file_content"].fields, "s3url")) ==>
              var down := data.fields["downloaded_file_content"].fields;
              && r.Success?
              && r.value.fields.Keys == data.fields.Keys + {"file_content", "content_fetched"}
              && r.value.fields["file_content"] == Str(fetch(down["s3url"]))
              && r.value.fields["content_fetched"] == Bool(true)
              && r.value.fields["downloaded_file_content"] == Dict(down - {"s3url"})
              && (forall k | k in data.fields && k !in {"file_content", "content_fetched", "downloaded_file_content"} ::
                    r.value.fields[k] == data.fields[k])
    ensures data.Dict? && ("downloaded_file_content" !in data.fields
                           || (data.fields["downloaded_file_content"].Dict?
                               && !Truthy(Get(data.fields["downloaded_file_content"].fields, "s3url")))) ==>
              r == Success(data)
  {
    if !data.Dict? then Failure(NoGetAttribute(data))
    else
      var downloaded := GetOr(data.fields, "downloaded_file_content", Dict(map[]));
      if !downloaded.Dict? then Failure(NoGetAttribute(downloaded))
      else
        var url := Get(downloaded.fields, "s3url");
        if !Truthy(url) then Success(data)
        else
          var withContent := data.fields["file_content" := Str(fetch(url))]["content_fetched" := Bool(true)];
          Success(Dict(withContent["downloaded_file_content" := Dict(downloaded.fields - {"s3url"})]))
  }

  /** The result handling of `execute_google_meet_tool` for a dictionary result. */
  function ShapeDictResult(slug: string, m: map<string, Value>, fetch: Value -> string): (r: Result<Value, AgentError>)
    ensures Truthy(Get(m, "error")) ==> r == Failure(GoogleMeetAPIError("API Error: " + PyStr(m["error"]), None, None))
    ensures !Truthy(Get(m, "error")) && slug != DownloadFileTool ==> r == Success(SuccessEnvelope(GetOr(m, "data", Dict(m))))
    ensures !Truthy(Get(m, "error")) && slug == DownloadFileTool ==>
              var shaped := WithFetchedContent(GetOr(m, "data", Dict(m)), fetch);
              && (shaped.Success? ==> r == Success(SuccessEnvelope(shaped.value)))
              && (shaped.Failure? ==> r == Failure(ClassifyFailure(slug, shaped.error)))
    ensures r.Failure? ==> IsInstance(Own(r.error), GoogleMeetAPIErrorClass)
    ensures r.Success? ==> IsEnvelope(r.value)
  {
    var data := GetOr(m, "data", Dict(m));
    var error := Get(m, "error");
    if Truthy(error) then Failure(GoogleMeetAPIError("API Error: " + PyStr(error), None, None))
    else if slug == DownloadFileTool then
      match WithFetchedContent(data, fetch)
      case Success(d) => Success(SuccessEnvelope(d))
      case Failure(e) => Failure(ClassifyFailure(slug, e))
    else Success(SuccessEnvelope(data))
  }

  /**
   * What an attempt can end in: a success envelope, or a GoogleMeetAPIError
   * (a RateLimitError included).
   */
  predicate WellShaped(r: Result<Value, AgentError>) {
    if r.Success? then IsEnvelope(r.value) else IsInstance(Own(r.error), GoogleMeetAPIErrorClass)
  }

  /** The handling of the SDK's answer once an account was found. */
  function ShapeResponse(slug: string, response: Result<ExecResult, Exc>, fetch: Value -> string): (r: Result<Value, AgentError>)
    ensures WellShaped(r)
    ensures response.Failure? ==> r == Failure(ClassifyFailure(slug, response.error))
    ensures response.Success? && response.value.OtherResult? ==> r == Success(SuccessEnvelope(Str(response.value.text)))
    ensures response.Success? && response.value.DictResult? ==> r == ShapeDictResult(slug, response.value.fields, fetch)
  {
    match response
    case Failure(e) => Failure(ClassifyFailure(slug, e))
    case Success(OtherResult(text)) => Success(SuccessEnvelope(Str(text)))
    case Success(DictResult(m)) => ShapeDictResult(slug, m, fetch)
  }

  /** One attempt of `execute_google_meet_tool`. */
  function ExecuteAttempt(slug: string, env: ExecEnv): (r: Result<Value, AgentError>)
    ensures WellShaped(r)
    ensures !TruthyText(AccountForTool(env.accounts, slug)) ==> r == Failure(NoConnectionError(slug))
    ensures TruthyText(AccountForTool(env.accounts, slug)) ==> r == ShapeResponse(slug, env.response, env.fetch)
  {
    var account := AccountForTool(env.accounts, slug);
    if !TruthyText(account) then Failure(NoConnectionError(slug))
    else ShapeResponse(slug, env.response, env.fetch)
  }

  predicate IsExecuteRetryable(e: AgentError) {
    IsInstance(Own(e), ComposioConnectionErrorClass) || IsInstance(Own(e), RateLimitErrorClass)
  }

  /** `execute_google_meet_tool` with its decorator: retried on ComposioConnectionError and RateLimitError. */
  function ExecuteGoogleMeetTool(slug: string, envs: nat -> ExecEnv): Attempted<Value> {
    Retry(ExecuteRun(slug, envs), IsExecuteRetryable)
  }

  /** Attempt k of a call reads the k-th scripted environment. */
  function ExecuteRun(slug: string, envs: nat -> ExecEnv): nat -> Result<Value, AgentError> {
    (k: nat) => ExecuteAttempt(slug, envs(k))
  }

  lemma ExecuteRunAt(slug: string, envs: nat -> ExecEnv, k: nat)
    ensures ExecuteRun(slug, envs)(k) == ExecuteAttempt(slug, envs(k))
  {
  }

  /** Among GoogleMeetAPIErrors, the execute retry predicate picks exactly the rate-limit errors. */
  lemma ApiErrorRetryableIffRateLimit(e: AgentError)
    requires IsInstance(Own(e), GoogleMeetAPIErrorClass)
    ensures IsExecuteRetryable(e) <==> e.kind.RateLimit?
  {
    Hierarchy(e, ComposioConnectionErrorClass);
    Hierarchy(e, RateLimitErrorClass);
    Hierarchy(e, GoogleMeetAPIErrorClass);
  }

  /** The execute retry policy over attempts that can only fail with GoogleMeetAPIErrors. */
  lemma {:induction false} RetryOfApiFailures(run: nat -> Result<Value, AgentError>)
    requires forall k: nat :: run(k).Failure? ==> IsInstance(Own(run(k).error), GoogleMeetAPIErrorClass)
    ensures var r := Retry(run, IsExecuteRetryable);
            && (forall k | 0 <= k < r.attempts - 1 :: run(k).Failure? && run(k).error.kind.RateLimit?)
            && (run(0).Failure? && !run(0).error.kind.RateLimit? ==> r.attempts == 1 && r.outcome == run(0))
            && (r.outcome.Failure? && r.attempts < MaxAttempts ==> !r.outcome.error.kind.RateLimit?)
  {
    var r := Retry(run, IsExecuteRetryable);
    forall k | 0 <= k < r.attempts - 1 ensures run(k).Failure? && run(k).error.kind.RateLimit? {
      ApiErrorRetryableIffRateLimit(run(k).error);
    }
    if r.outcome.Failure? {
      ApiErrorRetryableIffRateLimit(r.outcome.error);
    }
    if run(0).Failure? && !run(0).error.kind.RateLimit? {
      ApiErrorRetryableIffRateLimit(run(0).error);
    }
  }

  /**
   * Since every failure is turned into a GoogleMeetAPIError, only rate-limit
   * errors are ever re-attempted: every repeated attempt failed with
   * RateLimitError, a 401, 403, 404 or generic failure ends the call after
   * that attempt, and a rate-limit failure is reported only once all three
   * attempts are spent.
   */
  lemma {:induction false} ExecuteRetriesOnlyRateLimits(slug: string, envs: nat -> ExecEnv)
    ensures var r := ExecuteGoogleMeetTool(slug, envs);
            var attempt := ExecuteRun(slug, envs);
            && 1 <= r.attempts <= MaxAttempts
            && r.outcome == attempt(r.attempts - 1)
            && r.outcome == ExecuteAttempt(slug, envs(r.attempts - 1))
            && (forall k | 0 <= k < r.attempts - 1 :: attempt(k).Failure? && attempt(k).error.kind.RateLimit?)
            && (attempt(0).Failure? && !attempt(0).error.kind.RateLimit? ==> r.attempts == 1 && r.outcome == attempt(0))
            && (r.outcome.Failure? && r.attempts < MaxAttempts ==> !r.outcome.error.kind.RateLimit?)
            && (r.outcome.Failure? ==> IsInstance(Own(r.outcome.error), GoogleMeetAPIErrorClass))
  {
    var run := ExecuteRun(slug, envs);
    forall k: nat | run(k).Failure? ensures IsInstance(Own(run(k).error), GoogleMeetAPIErrorClass) {
      assert run(k) == ExecuteAttempt(slug, envs(k));
    }
    RetryOfApiFailures(run);
    ExecuteRunAt(slug, envs, ExecuteGoogleMeetTool(slug, envs).attempts - 1);
  }

  /**
   * The download round trip: a successful download whose raw data held a
   * truthy `s3url` never shows that URL, and shows the fetched text.
   */
  lemma DownloadHidesTemporaryUrl(m: map<string, Value>, env: ExecEnv)
    requires TruthyText(AccountForTool(env.accounts, DownloadFileTool))
    requires env.response == Success(DictResult(m)) && !Truthy(Get(m, "error"))
    requires var data := GetOr(m, "data", Dict(m));
             data.Dict? && "downloaded_file_content" in data.fields && data.fields["downloaded_file_content"].Dict?
             && Truthy(Get(data.fields["downloaded_file_content"].fields, "s3url"))
    ensures var r := ExecuteAttempt(DownloadFileTool, env);
            var data := GetOr(m, "data", Dict(m));
            && r.Success?
            && r.value.fields["data"].Dict?
            && r.value.fields["data"].fields["file_content"]
               == Str(env.fetch(data.fields["downloaded_file_content"].fields["s3url"]))
            && r.value.fields["data"].fields["downloaded_file_content"].Dict?
            && "s3url" !in r.value.fields["data"].fields["downloaded_file_content"].fields
  {
    var data := GetOr(m, "data", Dict(m));
    var shaped := WithFetchedContent(data, env.fetch);
    assert shaped.Success?;
    assert ShapeDictResult(DownloadFileTool, m, env.fetch) == Success(SuccessEnvelope(shaped.value));
  }
}
