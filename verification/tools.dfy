/** The MCP tool surface (`McpTools` in salt-api-mcp/src/mcp-tools.ts): the two tool
    descriptors, validation of tool arguments, and dispatch of a tool call to the client with
    every failure turned into an error result. */
module Tools {
  import opened Wrappers
  import opened Text
  import opened Values
  import opened Client

  const ListToolName: string := "list_cloud_assets"
  const GetToolName: string := "get_cloud_asset"

  // ---------------------------------------------------------------------------
  // Tool discovery

  /** One property of a tool's input schema; numeric bounds and defaults are optional. */
  datatype PropertySchema = PropertySchema(
    name: string,
    kind: string,
    description: string,
    minimum: Option<int>,
    maximum: Option<int>,
    defaultValue: Option<int>)

  datatype ToolDescriptor = ToolDescriptor(
    name: string,
    description: string,
    properties: seq<PropertySchema>,
    required: seq<string>)

  const ListDescription: string := "Get a list of company cloud assets from Salt Security API"
  const LimitDescription: string := "Maximum number of assets to return (1-1000, default: 100)"
  const OffsetDescription: string := "Number of assets to skip for pagination (default: 0)"
  const GetDescription: string := "Get a specific cloud asset by ID from Salt Security API"
  const IdDescription: string := "The unique identifier of the cloud asset"

  /** `listTools()`: the two tools, always in this order. */
  function ListTools(): (tools: seq<ToolDescriptor>)
    ensures |tools| == 2
    ensures tools[0].name == ListToolName && tools[1].name == GetToolName
    ensures tools[0].required == [] && tools[1].required == ["id"]
  {
    [ ToolDescriptor(ListToolName, ListDescription,
        [ PropertySchema("limit", "number", LimitDescription, Some(1), Some(1000), Some(100)),
          PropertySchema("offset", "number", OffsetDescription, Some(0), None, Some(0)) ],
        []),
      ToolDescriptor(GetToolName, GetDescription,
        [ PropertySchema("id", "string", IdDescription, None, None, None) ],
        ["id"]) ]
  }

  // ---------------------------------------------------------------------------
  // Argument validation

  /** A validation issue, as the schema validator reports it. */
  datatype Issue =
    | NotAnObject
    | Required(field: string)
    | WrongType(field: string, expected: string)
    | TooSmall(field: string, minimum: int)
    | TooBig(field: string, maximum: int)

  /** A field the caller left out: absent, or present with the value `undefined`. */
  predicate Omitted(v: Option<Value>) {
    v.None? || v.value.Undefined?
  }

  /** An optional numeric field with bounds and a default: `z.number().min(lo).max(hi).optional().default(d)`. */
  function NumberField(field: string, v: Option<Value>, lo: int, hi: Option<int>, d: int): (r: Result<int, seq<Issue>>)
    ensures r.Success? <==> Omitted(v) || (v.value.Num? && lo <= v.value.n && (hi.None? || v.value.n <= hi.value))
    ensures r.Success? ==> r.value == (if Omitted(v) then d else v.value.n)
    ensures r.Failure? ==> |r.error| == 1 && !r.error[0].NotAnObject? && r.error[0].field == field
  {
    if Omitted(v) then Success(d)
    else if !v.value.Num? then Failure([WrongType(field, "number")])
    else if v.value.n < lo then Failure([TooSmall(field, lo)])
    else if hi.Some? && v.value.n > hi.value then Failure([TooBig(field, hi.value)])
    else Success(v.value.n)
  }

  /** Validated arguments of `list_cloud_assets`. */
  datatype ListArgs = ListArgs(limit: int, offset: int)

  /** The `list_cloud_assets` argument schema; the issues of both fields are reported together. */
  function ParseListArgs(args: Value): (r: Result<ListArgs, seq<Issue>>)
    ensures r.Success? ==> 1 <= r.value.limit <= 1000 && r.value.offset >= 0
    ensures !args.Obj? ==> r == Failure([NotAnObject])
    ensures args.Obj? ==>
      var limit := Lookup(args.fields, "limit");
      var offset := Lookup(args.fields, "offset");
      && (r.Success? <==> NumberField("limit", limit, 1, Some(1000), 100).Success?
                          && NumberField("offset", offset, 0, None, 0).Success?)
      && (r.Success? ==> r.value.limit == (if Omitted(limit) then 100 else limit.value.n)
                         && r.value.offset == (if Omitted(offset) then 0 else offset.value.n))
    ensures r.Failure? ==> |r.error| > 0
    ensures args.Obj? && r.Failure? ==>
      var limit := NumberField("limit", Lookup(args.fields, "limit"), 1, Some(1000), 100);
      var offset := NumberField("offset", Lookup(args.fields, "offset"), 0, None, 0);
      && |r.error| == (if limit.Failure? then 1 else 0) + (if offset.Failure? then 1 else 0)
      && (limit.Failure? ==> r.error[0] == limit.error[0])
      && (offset.Failure? ==> r.error[|r.error| - 1] == offset.error[0])
  {
    if !args.Obj? then Failure([NotAnObject])
    else
      var limit := NumberField("limit", Lookup(args.fields, "limit"), 1, Some(1000), 100);
      var offset := NumberField("offset", Lookup(args.fields, "offset"), 0, None, 0);
      if limit.Success? && offset.Success? then Success(ListArgs(limit.value, offset.value))
      else Failure((if limit.Failure? then limit.error else []) + (if offset.Failure? then offset.error else []))
  }

  /** The `get_cloud_asset` argument schema: `id` must be a string of at least one character. */
  function ParseGetArgs(args: Value): (r: Result<string, seq<Issue>>)
    ensures r.Success? <==> args.Obj? && var id := Lookup(args.fields, "id"); id.Some? && id.value.Str? && |id.value.s| >= 1
    ensures r.Success? ==> Lookup(args.fields, "id") == Some(Str(r.value))
    ensures r.Failure? ==> |r.error| == 1
  {
    if !args.Obj? then Failure([NotAnObject])
    else
      var id := Lookup(args.fields, "id");
      if Omitted(id) then Failure([Required("id")])
      else if !id.value.Str? then Failure([WrongType("id", "string")])
      else if |id.value.s| < 1 then Failure([TooSmall("id", 1)])
      else Success(id.value.s)
  }

  // ---------------------------------------------------------------------------
  // Dispatch

  /** The text renderings the tools use: YAML, indented JSON, and the validator's error message. */
  datatype Renderers = Renderers(yaml: Value -> string, json: Value -> string, issues: seq<Issue> -> string)

  /** A content block; its type is always "text". */
  datatype TextBlock = TextBlock(text: string)

  /** A tool result; `isError` false stands for the flag being absent. */
  datatype ToolResult = ToolResult(content: seq<TextBlock>, isError: bool)

  /** The client operation a tool call invokes once its arguments are valid. */
  datatype ClientCall = ListCall(limit: int, offset: int) | GetCall(id: string)

  /** A tool call's effect: the client operation it invoked, the requests the client attempted,
      and the result returned to the MCP caller. */
  datatype Dispatch = Dispatch(invoked: Option<ClientCall>, requests: seq<Request>, result: ToolResult)

  function ErrorResult(message: string): (t: ToolResult)
    ensures |t.content| == 1 && t.isError && StartsWith(t.content[0].text, "Error: ")
    ensures t.content[0].text == "Error: " + message
  {
    ToolResult([TextBlock("Error: " + message)], true)
  }

  /** `result.yaml || JSON.stringify(result, null, 2)`: the YAML text unless it is empty. */
  function AnswerText(yamlText: string, json: string): (r: string)
    ensures yamlText != "" ==> r == yamlText
    ensures yamlText == "" ==> r == json
  {
    if yamlText != "" then yamlText else json
  }

  function Sent(o: Option<Request>): seq<Request> {
    if o.Some? then [o.value] else []
  }

  /** Runs one client operation: the request it sent, and the text shown on success or the
      error it threw. */
  function Invoke(cfg: Config, up: Upstream, rd: Renderers, call: ClientCall): (c: Call<string>)
    ensures call.ListCall? ==>
      var l := ListCloudAssets(cfg, up, rd.yaml, call.limit, call.offset);
      && c.sent == l.sent
      && (c.result.Failure? <==> l.result.Failure?)
      && (l.result.Failure? ==> c.result.error == l.result.error)
      && (l.result.Success? ==> c.result == Success(
            if l.result.value.yaml != "" then l.result.value.yaml else rd.json(PageValue(l.result.value))))
    ensures call.GetCall? ==>
      var g := GetCloudAsset(cfg, up, rd.yaml, call.id);
      && c.sent == g.sent
      && (c.result.Failure? <==> g.result.Failure?)
      && (g.result.Failure? ==> c.result.error == g.result.error)
      && (g.result.Success? ==> c.result == Success(
            if g.result.value.yaml != "" then g.result.value.yaml else rd.json(AssetViewValue(g.result.value))))
  {
    match call
    case ListCall(limit, offset) =>
      var l := ListCloudAssets(cfg, up, rd.yaml, limit, offset);
      Call(l.sent,
        match l.result
        case Success(page) => Success(AnswerText(page.yaml, rd.json(PageValue(page))))
        case Failure(e) => Failure(e))
    case GetCall(id) =>
      var g := GetCloudAsset(cfg, up, rd.yaml, id);
      Call(g.sent,
        match g.result
        case Success(view) => Success(AnswerText(view.yaml, rd.json(AssetViewValue(view))))
        case Failure(e) => Failure(e))
  }

  /** `callTool(toolName, args)` */
  function CallTool(cfg: Config, up: Upstream, rd: Renderers, toolName: string, args: Value): (d: Dispatch)
    ensures |d.result.content| == 1
    ensures d.result.isError ==> StartsWith(d.result.content[0].text, "Error: ")
    ensures toolName != ListToolName && toolName != GetToolName ==>
      d == Dispatch(None, [], ErrorResult("Unknown tool: " + toolName))
    ensures toolName == ListToolName ==>
      && (d.invoked.Some? <==> ParseListArgs(args).Success?)
      && (d.invoked.Some? ==> d.invoked.value == ListCall(ParseListArgs(args).value.limit, ParseListArgs(args).value.offset))
      && (d.invoked.None? ==> d.result == ErrorResult(rd.issues(ParseListArgs(args).error)))
    ensures toolName == GetToolName ==>
      && (d.invoked.Some? <==> ParseGetArgs(args).Success?)
      && (d.invoked.Some? ==> d.invoked.value == GetCall(ParseGetArgs(args).value))
      && (d.invoked.None? ==> d.result == ErrorResult(rd.issues(ParseGetArgs(args).error)))
    ensures d.invoked.None? ==> d.requests == [] && d.result.isError
    ensures d.invoked.Some? ==>
      var c := Invoke(cfg, up, rd, d.invoked.value);
      && d.requests == Sent(c.sent)
      && d.result.isError == c.result.Failure?
      && d.result.content[0].text == (if c.result.Failure? then "Error: " + Message(c.result.error) else c.result.value)
  {
    var call: Result<ClientCall, seq<Issue>> :=
      if toolName == ListToolName then
        match ParseListArgs(args)
        case Success(la) => Success(ListCall(la.limit, la.offset))
        case Failure(issues) => Failure(issues)
      else if toolName == GetToolName then
        match ParseGetArgs(args)
        case Success(id) => Success(GetCall(id))
        case Failure(issues) => Failure(issues)
      else Failure([]);
    if toolName != ListToolName && toolName != GetToolName then
      Dispatch(None, [], ErrorResult("Unknown tool: " + toolName))
    else if call.Failure? then
      Dispatch(None, [], ErrorResult(rd.issues(call.error)))
    else
      var c := Invoke(cfg, up, rd, call.value);
      Dispatch(Some(call.value), Sent(c.sent),
        match c.result
        case Failure(e) => ErrorResult(Message(e))
        case Success(text) => ToolResult([TextBlock(text)], false))
  }

  // ---------------------------------------------------------------------------
  // Properties

  /** The advertised input schemas agree with the validators: an integer `limit` or `offset` is
      accepted exactly when it lies within the advertised bounds, and an omitted one takes the
      advertised default. */
  lemma DescriptorsAgreeWithValidation(n: int)
    ensures var limit := ListTools()[0].properties[0];
      && limit.name == "limit"
      && (ParseListArgs(Obj([("limit", Num(n))])).Success? <==> limit.minimum.value <= n <= limit.maximum.value)
    ensures var offset := ListTools()[0].properties[1];
      && offset.name == "offset" && offset.maximum.None?
      && (ParseListArgs(Obj([("offset", Num(n))])).Success? <==> offset.minimum.value <= n)
    ensures ParseListArgs(Obj([])) ==
      Success(ListArgs(ListTools()[0].properties[0].defaultValue.value, ListTools()[0].properties[1].defaultValue.value))
    ensures ListTools()[1].required == ["id"] && ParseGetArgs(Obj([])).Failure?
  {
  }

  /** Validated list arguments are already within the client's clamping range, so the request
      that reaches the network carries exactly the caller's (or the default) values. */
  lemma ListRequestCarriesValidatedArguments(cfg: Config, up: Upstream, rd: Renderers, args: Value)
    requires Truthy(cfg.bearerToken)
    requires ParseListArgs(args).Success?
    ensures var la := ParseListArgs(args).value;
      CallTool(cfg, up, rd, ListToolName, args).requests == [ListRequest(la.limit, la.offset)]
  {
  }

  /** Without a bearer token no tool call reaches the network; a call with valid arguments
      reports the missing token. */
  lemma NoTokenNoRequests(cfg: Config, up: Upstream, rd: Renderers, toolName: string, args: Value)
    requires !Truthy(cfg.bearerToken)
    ensures var d := CallTool(cfg, up, rd, toolName, args);
      && d.requests == []
      && (d.invoked.Some? ==> d.result == ErrorResult(Message(TokenMissing)))
  {
  }

  /** An empty `id` is rejected by the argument schema; the client is never invoked. */
  lemma EmptyIdNeverInvokesClient(cfg: Config, up: Upstream, rd: Renderers)
    ensures var d := CallTool(cfg, up, rd, GetToolName, Obj([("id", Str(""))]));
      d.invoked.None? && d.requests == [] && d.result == ErrorResult(rd.issues([TooSmall("id", 1)]))
  {
  }

  /** An `id` made only of white space passes the argument schema but not the client's
      blank-id guard: the client is invoked and sends nothing. */
  lemma BlankIdStopsInClient(cfg: Config, up: Upstream, rd: Renderers, id: string)
    requires Truthy(cfg.bearerToken)
    requires |id| > 0 && forall i :: 0 <= i < |id| ==> IsJsSpace(id[i])
    ensures var d := CallTool(cfg, up, rd, GetToolName, Obj([("id", Str(id))]));
      && d.invoked == Some(GetCall(id))
      && d.requests == []
      && d.result == ErrorResult("Asset ID is required and cannot be empty")
  {
    TrimEmptyIffBlank(id);
  }

  /** A list call without arguments asks for the first hundred assets. */
  lemma DefaultListCall(cfg: Config, up: Upstream, rd: Renderers)
    requires Truthy(cfg.bearerToken)
    ensures var d := CallTool(cfg, up, rd, ListToolName, Obj([]));
      d.invoked == Some(ListCall(100, 0)) && d.requests == [ListRequest(100, 0)]
  {
  }

  /** An upstream 401 is reported to the caller as the authentication message. */
  lemma UnauthorisedListCall(cfg: Config, up: Upstream, rd: Renderers, message: Option<string>, statusText: string)
    requires Truthy(cfg.bearerToken)
    requires up.listAssets(100, 0) == Status(401, message, statusText)
    ensures CallTool(cfg, up, rd, ListToolName, Obj([])).result ==
      ToolResult([TextBlock("Error: " + ("Authentication failed." + " Please check your Bearer token."))], true)
  {
    assert ParseListArgs(Obj([])) == Success(ListArgs(100, 0));
    assert ListCloudAssets(cfg, up, rd.yaml, 100, 0).result == Failure(AuthenticationFailed);
    assert Invoke(cfg, up, rd, ListCall(100, 0)).result == Failure(AuthenticationFailed);
  }

  /** Two client failures surface as the same error text only when they are the same error. */
  lemma ErrorTextIdentifiesClientError(e1: ClientError, e2: ClientError)
    requires ErrorResult(Message(e1)) == ErrorResult(Message(e2))
    ensures e1 == e2
  {
    var p := "Error: ";
    assert Message(e1) == (p + Message(e1))[|p|..];
    assert Message(e2) == (p + Message(e2))[|p|..];
    MessageInjective(e1, e2);
  }
}
