/** The server (`serve` in src/discord_mcp_server.py): the startup URL check,
    the advertised tool catalogue and the `call_tool` dispatch gate. */
module Server {
  import opened Wrappers
  import opened Mcp
  import opened Webhook
  import opened Tools

  const ToolName: string := "send_message"
  const MissingUrlText: string := "必须提供DISCORD_WEBHOOK_URL环境变量或通过参数传入webhook_url"
  const UnknownToolPrefix: string := "未知的工具名称: "
  const MissingContentText: string := "消息内容不能为空"

  /** A started server: its webhook client (the tools layer only wraps it). */
  datatype Running = Running(webhook: DiscordWebhook)

  /** The JSON types the catalogue's schema uses. */
  datatype JsonType = StringType | ObjectType

  /** One property of an input schema. */
  datatype Property = Property(kind: JsonType, description: string, default: Option<string>, choices: Option<seq<string>>)

  datatype InputSchema = InputSchema(kind: JsonType, properties: map<string, Property>, required: seq<string>)

  datatype Tool = Tool(name: string, description: string, inputSchema: InputSchema)

  /** Python's truthiness of an optional string. */
  predicate Given(url: Option<string>) {
    url.Some? && url.value != ""
  }

  /** Startup: the argument if it is given, else the environment variable; the
      server is built only when one of them is a non-empty URL. */
  function Serve(argUrl: Option<string>, envUrl: Option<string>): (r: Result<Running, Exception>)
    ensures r.Success? <==> Given(argUrl) || Given(envUrl)
    ensures r.Success? ==> r.value.webhook.Valid()
    ensures r.Success? && Given(argUrl) ==> r.value.webhook.url == argUrl.value
    ensures r.Success? && !Given(argUrl) ==> r.value.webhook.url == envUrl.value
    ensures r.Failure? ==> r.error.ValueError?
  {
    var url := if Given(argUrl) then argUrl else envUrl;
    if !Given(url) then Failure(ValueError(MissingUrlText))
    else Success(Running(Webhook.New(url).value))
  }

  /** The `list_tools` catalogue: the one tool and the schema of its arguments. */
  function ListTools(): seq<Tool>
  {
    [Tool(ToolName, "发送消息到Discord，支持text和markdown格式",
          InputSchema(ObjectType,
                      map["content" := Property(StringType, "消息内容", None, None),
                          "msg_type" := Property(StringType, "消息类型，支持text和markdown", Some("text"), Some(["text", "markdown"]))],
                      ["content"]))]
  }

  /** A JSON value fits a property's type and, if it has one, its enumeration. */
  predicate Admits(p: Property, v: Value) {
    match p.kind
    case StringType => v.Str? && (p.choices.Some? ==> v.s in p.choices.value)
    case ObjectType => v.Obj?
  }

  /** The arguments satisfy a schema: every required key is present and every
      declared key that is present holds an admissible value. */
  predicate Conforms(schema: InputSchema, args: map<string, Value>) {
    && (forall k :: k in schema.required ==> k in args)
    && (forall k :: k in args && k in schema.properties ==> Admits(schema.properties[k], args[k]))
  }

  /** `call_tool`: the name check, then the presence of `content`, then the
      tools layer with `msg_type` defaulting to `"text"`. */
  function CallTool(s: Running, name: string, arguments: map<string, Value>, outcome: HttpOutcome)
    : (r: Invocation<seq<TextContent>>)
    ensures name != ToolName ==> r.sent.None? && r.result.Failure? && HasCode(r.result.error, INVALID_PARAMS)
    ensures name == ToolName && "content" !in arguments ==>
              r.sent.None? && r.result.Failure? && HasCode(r.result.error, INVALID_PARAMS)
    ensures name == ToolName && "content" in arguments && "msg_type" in arguments && !Supported(arguments["msg_type"]) ==>
              r.sent.None? && r.result.Failure? && HasCode(r.result.error, INVALID_PARAMS)
    ensures r.sent.Some? ==> "content" in arguments && r.sent.value == Post(s.webhook.url, map["content" := arguments["content"]])
    ensures r.result.Success? ==> r.result.value == [TextContent("text", SuccessText)]
    ensures r.result != Success([TextContent("text", FailureText)])
  {
    if name != ToolName then
      Invocation(Failure(McpError(ErrorData(INVALID_PARAMS, UnknownToolPrefix + name))), None)
    else if "content" !in arguments then
      Invocation(Failure(McpError(ErrorData(INVALID_PARAMS, MissingContentText))), None)
    else
      var msgType := if "msg_type" in arguments then arguments["msg_type"] else Str("text");
      var t := Tools.SendMessage(s.webhook, arguments["content"], msgType, outcome);
      var result :=
        match t.result
        case Success(record) => Success([TextContent("text", record.message)])
        case Failure(e) => Failure(e);
      Invocation(result, t.sent)
  }

  /** The gate and the advertised schema agree: a post goes out exactly when the
      tool name is the catalogued one and the arguments conform to its schema. */
  lemma SendsIffConforms(s: Running, name: string, arguments: map<string, Value>, outcome: HttpOutcome)
    ensures CallTool(s, name, arguments, outcome).sent.Some?
        <==> name == ListTools()[0].name && Conforms(ListTools()[0].inputSchema, arguments)
  {
    var schema := ListTools()[0].inputSchema;
    if name == ToolName && Conforms(schema, arguments) {
      assert "content" in schema.required;
      assert Admits(schema.properties["content"], arguments["content"]);
      if "msg_type" in arguments {
        assert Admits(schema.properties["msg_type"], arguments["msg_type"]);
      }
    }
    if CallTool(s, name, arguments, outcome).sent.Some? {
      forall k | k in schema.required
        ensures k in arguments
      {
        assert k == "content";
      }
      forall k | k in arguments && k in schema.properties
        ensures Admits(schema.properties[k], arguments[k])
      {
        assert k == "content" || k == "msg_type";
      }
    }
  }

  /** A call succeeds exactly when the post goes out and the endpoint answers
      with a status below 400. */
  lemma SucceedsIffDelivered(s: Running, name: string, arguments: map<string, Value>, outcome: HttpOutcome)
    ensures CallTool(s, name, arguments, outcome).result.Success?
        <==> CallTool(s, name, arguments, outcome).sent.Some? && outcome.Response? && outcome.status < 400
  {
  }

  /** Once a post goes out, every failure is an `INTERNAL_ERROR`; before that,
      every refusal is the record's type error or an `INVALID_PARAMS`. */
  lemma FailureCodes(s: Running, name: string, arguments: map<string, Value>, outcome: HttpOutcome)
    ensures var r := CallTool(s, name, arguments, outcome);
      r.result.Failure? ==>
        if r.sent.Some? then HasCode(r.result.error, INTERNAL_ERROR)
        else HasCode(r.result.error, INVALID_PARAMS) || r.result.error == ValidationError("content")
  {
  }

  /** Presence is all that is checked of `content`: an empty string is posted as is. */
  lemma EmptyContentIsSent(s: Running, outcome: HttpOutcome)
    ensures CallTool(s, ToolName, map["content" := Str("")], outcome).sent
         == Some(Post(s.webhook.url, map["content" := Str("")]))
  {
  }

  /** An absent `msg_type` behaves exactly as the schema's default, `"text"`. */
  lemma AbsentTypeIsSchemaDefault(s: Running, name: string, arguments: map<string, Value>, outcome: HttpOutcome)
    requires "msg_type" !in arguments
    ensures ListTools()[0].inputSchema.properties["msg_type"].default == Some("text")
    ensures CallTool(s, name, arguments, outcome) == CallTool(s, name, arguments["msg_type" := Str("text")], outcome)
  {
    var withType := arguments["msg_type" := Str("text")];
    if name == ToolName && "content" in arguments {
      assert "content" in withType && withType["content"] == arguments["content"];
    }
  }

  /** The message type is never transmitted: any two supported types give the
      same request and the same reply. */
  lemma TypeNotTransmitted(s: Running, name: string, arguments: map<string, Value>, outcome: HttpOutcome, k1: string, k2: string)
    requires k1 in SupportedKinds && k2 in SupportedKinds
    ensures CallTool(s, name, arguments["msg_type" := Str(k1)], outcome)
         == CallTool(s, name, arguments["msg_type" := Str(k2)], outcome)
  {
    var a1 := arguments["msg_type" := Str(k1)];
    var a2 := arguments["msg_type" := Str(k2)];
    assert "content" in a1 <==> "content" in a2;
    if name == ToolName && "content" in a1 {
      assert a1["content"] == a2["content"];
      Webhook.KindNotTransmitted(s.webhook, if a1["content"].Str? then a1["content"].s else "", k1, k2, outcome);
    }
  }

  /** A call refused before the post does not depend on the endpoint at all. */
  lemma RefusalIgnoresOutcome(s: Running, name: string, arguments: map<string, Value>, o1: HttpOutcome, o2: HttpOutcome)
    requires CallTool(s, name, arguments, o1).sent.None?
    ensures CallTool(s, name, arguments, o1) == CallTool(s, name, arguments, o2)
  {
  }

  /** A rejected status reaches the caller of any conforming call as an
      `INTERNAL_ERROR` whose message reports the status code and ends with the
      response body. */
  lemma RejectedStatusReported(s: Running, arguments: map<string, Value>, status: int, text: string)
    requires Conforms(ListTools()[0].inputSchema, arguments)
    requires status >= 400
    ensures var r := CallTool(s, ToolName, arguments, Response(status, text)).result;
      r.Failure? && ReportsStatusAndBody(r.error, status, text)
  {
    SendsIffConforms(s, ToolName, arguments, Response(status, text));
    Webhook.StatusFailureReportsStatusAndBody(s.webhook, DiscordMessage(arguments["content"].s, "text"), status, text);
  }

  /** A transport failure reaches the caller of any conforming call as an
      `INTERNAL_ERROR` carrying the failure's description. */
  lemma TransportFailureReported(s: Running, arguments: map<string, Value>, desc: string)
    requires Conforms(ListTools()[0].inputSchema, arguments)
    ensures CallTool(s, ToolName, arguments, TransportError(desc)).result
         == Failure(McpError(ErrorData(INTERNAL_ERROR, TransportPrefix + desc)))
  {
    SendsIffConforms(s, ToolName, arguments, TransportError(desc));
  }

  /** The startup guarantee: every request a started server posts goes to a
      non-empty URL, the one chosen at startup. */
  lemma StartedServerPostsToUrl(argUrl: Option<string>, envUrl: Option<string>, name: string,
                                arguments: map<string, Value>, outcome: HttpOutcome)
    requires Serve(argUrl, envUrl).Success?
    ensures var r := CallTool(Serve(argUrl, envUrl).value, name, arguments, outcome);
      r.sent.Some? ==> r.sent.value.url != "" && r.sent.value.url == (if Given(argUrl) then argUrl.value else envUrl.value)
  {
  }
}
