/**
  The tool catalogue and the call handler of the server module: two tools,
  `fetch-embeddings` and `list-user-files`, routed by name; each call builds one
  upstream request, and the value the upstream client yields is shaped into a
  result with exactly one text content block. Any other name is a thrown
  `Error("Tool not found")`, which the protocol layer turns into an error reply.
 */
module Tools {
  import opened Wrappers
  import opened JsValue
  import JsonText
  import opened Api

  // ---------------------------------------------------------------------------
  // Catalogue

  datatype ParamType = StringParam | NumberParam

  /** One declared input property: its JSON Schema type, description, the
      values an `enum` allows (empty when there is no `enum`) and its default. */
  datatype Param = Param(
    name: string,
    kind: ParamType,
    description: string,
    allowed: seq<string>,
    default: Option<Value>)

  datatype InputSchema = InputSchema(properties: seq<Param>, required: seq<string>)

  datatype Tool = Tool(name: string, description: string, inputSchema: InputSchema)

  const FetchEmbeddingsTool: Tool :=
    Tool("fetch-embeddings", "Fetch embeddings for a file by ID and query",
      InputSchema(
        [ Param("file_id", StringParam, "ID of the file to get embeddings for", [], None),
          Param("query", StringParam, "Query to search for in the file", [], None) ],
        ["file_id", "query"]))

  const ListUserFilesTool: Tool :=
    Tool("list-user-files", "List all files uploaded to Supavec for the current user",
      InputSchema(
        [ Param("limit", NumberParam, "Number of files to fetch (default: 10)", [], Some(Num(10))),
          Param("offset", NumberParam, "Offset for pagination (default: 0)", [], Some(Num(0))),
          Param("order_dir", StringParam, "Order direction for results", ["desc", "asc"], Some(Str("desc"))) ],
        []))

  function Names(tools: seq<Tool>): (names: seq<string>)
    ensures |names| == |tools|
    ensures forall i :: 0 <= i < |tools| ==> names[i] == tools[i].name
  {
    if tools == [] then [] else [tools[0].name] + Names(tools[1..])
  }

  /** The declared property called `name`, if any. */
  function Declared(schema: InputSchema, name: string): Option<Param> {
    FindParam(schema.properties, name)
  }

  function FindParam(params: seq<Param>, name: string): (r: Option<Param>)
    ensures r.Some? ==> r.value in params && r.value.name == name
    ensures r.None? ==> forall p :: p in params ==> p.name != name
  {
    if params == [] then None
    else if params[0].name == name then Some(params[0])
    else FindParam(params[1..], name)
  }

  /** A parameter schema is consistent when every required name is a declared
      property without a default, and a property with an `enum` and a default
      has that default among its allowed values. */
  predicate SchemaConsistent(schema: InputSchema) {
    && (forall r :: r in schema.required ==>
          Declared(schema, r).Some? && Declared(schema, r).value.default.None?)
    && (forall p :: p in schema.properties && p.allowed != [] && p.default.Some? ==>
          exists a :: a in p.allowed && p.default.value == Str(a))
  }

  /** The catalogue the list handler answers with. It is a constant, so every
      listing gives the same two tools in the same order. */
  function ListTools(): (tools: seq<Tool>)
    ensures Names(tools) == ["fetch-embeddings", "list-user-files"]
    ensures forall t :: t in tools ==> SchemaConsistent(t.inputSchema)
    ensures tools[0].inputSchema.required == ["file_id", "query"]
    ensures tools[1].inputSchema.required == []
    ensures DeclaredDefault(tools[1], "limit") == Some(Num(10))
    ensures DeclaredDefault(tools[1], "offset") == Some(Num(0))
    ensures DeclaredDefault(tools[1], "order_dir") == Some(Str("desc"))
  {
    var tools := [FetchEmbeddingsTool, ListUserFilesTool];
    assert Names(tools) == ["fetch-embeddings"] + Names(tools[1..]);
    assert ListUserFilesTool.inputSchema.properties[2].default.value == Str(ListUserFilesTool.inputSchema.properties[2].allowed[0]);
    tools
  }

  /** The default the catalogue declares for property `name` of `tool`. */
  function DeclaredDefault(tool: Tool, name: string): Option<Value> {
    match Declared(tool.inputSchema, name)
    case None => None
    case Some(p) => p.default
  }

  // ---------------------------------------------------------------------------
  // Calls

  /** One content block; its `type` is always "text". */
  datatype Content = Text(mimeType: Option<string>, text: string)

  datatype ToolResult = ToolResult(content: seq<Content>)

  /** What the handler does with one call: resolve to a result, or throw. */
  datatype CallOutcome = Returned(result: ToolResult) | Raised(error: JsError)

  /** `request.params.arguments`: absent, or a record of decoded values. */
  type Arguments = Option<map<string, Value>>

  const ToolNotFound: CallOutcome := Raised(Error("Tool not found"))
  const JsonMime: string := "application/json"
  const EmbeddingsUrl: string := BaseUrl + "/embeddings"
  const UserFilesUrl: string := BaseUrl + "/user_files"

  /** `request.params.arguments?.key`, read without any type coercion. */
  function Arg(args: Arguments, key: string): (r: Option<Value>)
    ensures r.Some? <==> args.Some? && key in args.value
    ensures r.Some? ==> r.value == args.value[key]
  {
    if args.Some? && key in args.value then Some(args.value[key]) else None
  }

  /** A result holding one text block. */
  function Single(mimeType: Option<string>, text: string): CallOutcome {
    Returned(ToolResult([Text(mimeType, text)]))
  }

  /** How the handlers read the upstream client's value: `"error" in v` and,
      when it holds, `${v.error}` as the failure text; `in` on a value that is
      not an object throws. */
  function UpstreamError(v: Value): (r: Result<Option<string>, JsError>)
    ensures r.Err? <==> !v.Obj? && !v.Arr?
    ensures r.Ok? && r.value.Some? <==> v.Obj? && Lookup(v.members, "error").Some?
    ensures r.Err? ==> r.error == TypeError
  {
    match HasError(v)
    case Err(e) => Err(e)
    case Ok(present) =>
      if present then Ok(Some(Interpolate(Lookup(v.members, "error")))) else Ok(None)
  }

  // fetch-embeddings ----------------------------------------------------------

  /** `{file_ids: [file_id], query}` as `JSON.stringify` sends it: an undefined
      array element is written as null and an undefined member is dropped. */
  function EmbeddingsBody(fileId: Option<Value>, query: Option<Value>): (body: Value)
    ensures fileId.Some? && query.Some? ==>
      body == Obj([("file_ids", Arr([fileId.value])), ("query", query.value)])
  {
    var fileIds := ("file_ids", Arr([if fileId.Some? then fileId.value else Null]));
    if query.Some? then Obj([fileIds, ("query", query.value)]) else Obj([fileIds])
  }

  /** The request `fetch-embeddings` sends. */
  function EmbeddingsRequest(args: Arguments, apiKey: string): (r: HttpRequest)
    ensures r.httpMethod == "POST" && r.url == EmbeddingsUrl
    ensures ("authorization", apiKey) in r.headers
    ensures JsonText.Parse(r.body) == Some(EmbeddingsBody(Arg(args, "file_id"), Arg(args, "query")))
  {
    Request(EmbeddingsUrl, EmbeddingsBody(Arg(args, "file_id"), Arg(args, "query")), apiKey)
  }

  /** `documents.map((d) => d.content)`: reading `content` of a null element
      throws. */
  function Contents(documents: seq<Value>): (r: Result<seq<Option<Value>>, JsError>)
    ensures r.Ok? <==> forall i :: 0 <= i < |documents| ==> !documents[i].Null?
    ensures r.Err? ==> r.error == TypeError
    ensures r.Ok? ==> |r.value| == |documents|
    ensures r.Ok? ==> forall i :: 0 <= i < |documents| ==> Get(documents[i], "content") == Ok(r.value[i])
  {
    if documents == [] then Ok([])
    else
      match Get(documents[0], "content")
      case Err(e) => Err(e)
      case Ok(c) =>
        match Contents(documents[1..])
        case Err(e) => Err(e)
        case Ok(cs) => Ok([c] + cs)
  }

  /** `parts.join("\n")` over the mapped contents. */
  function JoinLines(parts: seq<Option<Value>>): string {
    Join(seq(|parts|, i requires 0 <= i < |parts| => JoinPart(parts[i])), "\n")
  }

  /** `embeddings.documents.map((d) => d.content).join("\n")`: throws unless
      `documents` is an array without null elements. */
  function DocumentsText(embeddings: Value): (r: Result<string, JsError>)
    ensures r.Err? ==> r.error == TypeError
  {
    match Get(embeddings, "documents")
    case Err(e) => Err(e)
    case Ok(documents) =>
      if documents.None? || !documents.value.Arr? then Err(TypeError)
      else
        match Contents(documents.value.items)
        case Err(e) => Err(e)
        case Ok(parts) => Ok(JoinLines(parts))
  }

  /** The `fetch-embeddings` branch once the upstream client has answered. */
  function EmbeddingsOutcome(fileId: Option<Value>, embeddings: Value): (r: CallOutcome)
    ensures r.Raised? ==> r.error == TypeError
    ensures r.Returned? ==> |r.result.content| == 1
  {
    match UpstreamError(embeddings)
    case Err(e) => Raised(e)
    case Ok(Some(message)) =>
      Single(None, "Failed to retrieve embeddings for " + Interpolate(fileId) + ": " + message)
    case Ok(None) =>
      match DocumentsText(embeddings)
      case Err(e) => Raised(e)
      case Ok(text) => Single(Some(JsonMime), JsonText.StringifyIndented(Str(text)))
  }

  function FetchEmbeddings(args: Arguments, apiKey: string, fetch: HttpRequest -> FetchOutcome): CallOutcome {
    var fileId := Arg(args, "file_id");
    var body := EmbeddingsBody(fileId, Arg(args, "query"));
    EmbeddingsOutcome(fileId, MakeSupavecRequest(EmbeddingsUrl, body, apiKey, fetch))
  }

  // list-user-files -----------------------------------------------------------

  /** `{pagination: {limit, offset}, order_dir}` with each field defaulted by
      `||`: an absent or falsy argument takes the default, anything else is
      sent as given, unchecked. */
  function UserFilesBody(args: Arguments): Value {
    var limit := OrElse(Arg(args, "limit"), Num(10));
    var offset := OrElse(Arg(args, "offset"), Num(0));
    var orderDir := OrElse(Arg(args, "order_dir"), Str("desc"));
    Obj([("pagination", Obj([("limit", limit), ("offset", offset)])), ("order_dir", orderDir)])
  }

  /** The request `list-user-files` sends. */
  function UserFilesRequest(args: Arguments, apiKey: string): (r: HttpRequest)
    ensures r.httpMethod == "POST" && r.url == UserFilesUrl
    ensures ("authorization", apiKey) in r.headers
    ensures JsonText.Parse(r.body) == Some(UserFilesBody(args))
  {
    Request(UserFilesUrl, UserFilesBody(args), apiKey)
  }

  /** The `list-user-files` branch once the upstream client has answered. */
  function UserFilesOutcome(userFiles: Value): (r: CallOutcome)
    ensures r.Raised? ==> r.error == TypeError
    ensures r.Returned? ==> |r.result.content| == 1
  {
    match UpstreamError(userFiles)
    case Err(e) => Raised(e)
    case Ok(Some(message)) => Single(None, "Failed to retrieve user files: " + message)
    case Ok(None) => Single(Some(JsonMime), JsonText.StringifyIndented(userFiles))
  }

  function ListUserFiles(args: Arguments, apiKey: string, fetch: HttpRequest -> FetchOutcome): CallOutcome {
    UserFilesOutcome(MakeSupavecRequest(UserFilesUrl, UserFilesBody(args), apiKey, fetch))
  }

  // dispatch ------------------------------------------------------------------

  /** The call handler: route by tool name. Exactly the catalogued names are
      served, and whatever is served is one content block. */
  function CallTool(name: string, args: Arguments, apiKey: string,
                    fetch: HttpRequest -> FetchOutcome): (r: CallOutcome)
    ensures r == ToolNotFound <==> name !in Names(ListTools())
    ensures r.Returned? ==> |r.result.content| == 1
  {
    if name == "fetch-embeddings" then FetchEmbeddings(args, apiKey, fetch)
    else if name == "list-user-files" then ListUserFiles(args, apiKey, fetch)
    else ToolNotFound
  }

  // ---------------------------------------------------------------------------
  // Properties

  /** The handler depends on the upstream only through the one request it
      sends for the tool. */
  lemma OnlyRequestMatters(name: string, args: Arguments, apiKey: string,
                           f: HttpRequest -> FetchOutcome, g: HttpRequest -> FetchOutcome)
    requires name == "fetch-embeddings" ==> f(EmbeddingsRequest(args, apiKey)) == g(EmbeddingsRequest(args, apiKey))
    requires name == "list-user-files" ==> f(UserFilesRequest(args, apiKey)) == g(UserFilesRequest(args, apiKey))
    ensures CallTool(name, args, apiKey, f) == CallTool(name, args, apiKey, g)
  {
  }

  /** A failed round trip becomes one block naming the file and the upstream
      client's message, without a MIME type. */
  lemma EmbeddingsFailure(args: Arguments, apiKey: string, fetch: HttpRequest -> FetchOutcome)
    requires !Delivers(fetch(EmbeddingsRequest(args, apiKey)))
    ensures CallTool("fetch-embeddings", args, apiKey, fetch)
         == Single(None, "Failed to retrieve embeddings for " + Interpolate(Arg(args, "file_id")) + ": "
                         + FailureMessage(fetch(EmbeddingsRequest(args, apiKey))))
  {
  }

  /** A delivered payload that is an object with a `documents` array and no
      `error` key becomes one `application/json` block whose text decodes to
      the documents' contents joined by newlines, in upstream order. */
  lemma EmbeddingsSuccess(args: Arguments, apiKey: string, fetch: HttpRequest -> FetchOutcome,
                          status: nat, members: seq<(string, Value)>, documents: seq<Value>)
    requires fetch(EmbeddingsRequest(args, apiKey)) == Responded(status, Parsed(Obj(members))) && IsOk(status)
    requires Lookup(members, "error").None?
    requires Lookup(members, "documents") == Some(Arr(documents))
    requires forall i :: 0 <= i < |documents| ==> !documents[i].Null?
    ensures var r := CallTool("fetch-embeddings", args, apiKey, fetch);
      && r.Returned? && |r.result.content| == 1
      && r.result.content[0].mimeType == Some(JsonMime)
      && JsonText.Parse(r.result.content[0].text) == Some(Str(ContentLines(documents)))
  {
    var parts :| Contents(documents) == Ok(parts);
    JsonText.QuoteRoundTrip(JoinLines(parts));
    ContentLinesAgree(documents, parts);
  }

  /** The text of the documents' `content` fields joined by newlines, read
      document by document: a missing or null `content` is an empty line. */
  function ContentLines(documents: seq<Value>): string {
    Join(seq(|documents|, i requires 0 <= i < |documents| => ContentLine(documents[i])), "\n")
  }

  function ContentLine(document: Value): string {
    if document.Obj? then JoinPart(Lookup(document.members, "content")) else ""
  }

  lemma ContentLinesAgree(documents: seq<Value>, parts: seq<Option<Value>>)
    requires Contents(documents) == Ok(parts)
    ensures JoinLines(parts) == ContentLines(documents)
  {
    var a := seq(|parts|, i requires 0 <= i < |parts| => JoinPart(parts[i]));
    var b := seq(|documents|, i requires 0 <= i < |documents| => ContentLine(documents[i]));
    assert a == b by {
      forall i | 0 <= i < |documents| ensures a[i] == b[i] {
        assert Get(documents[i], "content") == Ok(parts[i]);
      }
    }
  }

  /** A delivered payload that itself has an `error` key is shown as a
      failure, exactly like an upstream failure. */
  lemma ErrorKeyReadsAsFailure(name: string, args: Arguments, apiKey: string,
                               fetch: HttpRequest -> FetchOutcome,
                               members: seq<(string, Value)>, e: Value)
    requires name == "fetch-embeddings" || name == "list-user-files"
    requires var o := fetch(if name == "fetch-embeddings" then EmbeddingsRequest(args, apiKey)
                                else UserFilesRequest(args, apiKey));
      o.Responded? && IsOk(o.status) && o.body == Parsed(Obj(members))
    requires Lookup(members, "error") == Some(e)
    ensures CallTool(name, args, apiKey, fetch)
         == if name == "fetch-embeddings"
            then Single(None, "Failed to retrieve embeddings for " + Interpolate(Arg(args, "file_id")) + ": " + ToJsString(e))
            else Single(None, "Failed to retrieve user files: " + ToJsString(e))
  {
  }

  /** A delivered payload that the handler cannot read throws a TypeError:
      a primitive (for `in`), or, for `fetch-embeddings`, a payload whose
      `documents` cannot be mapped. */
  lemma UnreadablePayloadThrows(name: string, args: Arguments, apiKey: string,
                                fetch: HttpRequest -> FetchOutcome, payload: Value)
    requires name == "fetch-embeddings" || name == "list-user-files"
    requires var o := fetch(if name == "fetch-embeddings" then EmbeddingsRequest(args, apiKey)
                                else UserFilesRequest(args, apiKey));
      o.Responded? && IsOk(o.status) && o.body == Parsed(payload)
    requires (!payload.Obj? && !payload.Arr?) || (name == "fetch-embeddings" && UnreadableDocuments(payload))
    ensures CallTool(name, args, apiKey, fetch) == Raised(TypeError)
  {
  }

  /** A payload without an `error` key whose `documents` cannot be mapped:
      an array (its `documents` is undefined), or an object whose `documents`
      is missing, is not an array, or holds a null document. */
  predicate UnreadableDocuments(payload: Value) {
    || payload.Arr?
    || (&& payload.Obj?
        && Lookup(payload.members, "error").None?
        && match Lookup(payload.members, "documents")
           case None => true
           case Some(d) => !d.Arr? || exists i :: 0 <= i < |d.items| && d.items[i].Null?)
  }

  /** A status outside 200-299 is reported as the status code alone, for
      either tool: the block's text ends with "Failed to fetch data: status "
      and the code in decimal. */
  lemma StatusFailureReported(name: string, args: Arguments, apiKey: string,
                              fetch: HttpRequest -> FetchOutcome)
    requires name == "fetch-embeddings" || name == "list-user-files"
    requires var o := fetch(if name == "fetch-embeddings" then EmbeddingsRequest(args, apiKey)
                                else UserFilesRequest(args, apiKey));
      o.Responded? && !IsOk(o.status)
    ensures var o := fetch(if name == "fetch-embeddings" then EmbeddingsRequest(args, apiKey)
                               else UserFilesRequest(args, apiKey));
      var r := CallTool(name, args, apiKey, fetch);
      var suffix := "Failed to fetch data: status " + NatToString(o.status);
      && r.Returned? && |r.result.content| == 1 && r.result.content[0].mimeType.None?
      && |r.result.content[0].text| >= |suffix|
      && r.result.content[0].text[|r.result.content[0].text| - |suffix|..] == suffix
  {
    var o := fetch(if name == "fetch-embeddings" then EmbeddingsRequest(args, apiKey)
                   else UserFilesRequest(args, apiKey));
    var suffix := "Failed to fetch data: status " + NatToString(o.status);
    assert FailureMessage(o) == suffix;
    var prefix;
    if name == "fetch-embeddings" {
      EmbeddingsFailure(args, apiKey, fetch);
      prefix := "Failed to retrieve embeddings for " + Interpolate(Arg(args, "file_id")) + ": ";
    } else {
      UserFilesFailure(args, apiKey, fetch);
      prefix := "Failed to retrieve user files: ";
    }
    assert CallTool(name, args, apiKey, fetch) == Single(None, prefix + suffix);
    assert (prefix + suffix)[|prefix + suffix| - |suffix|..] == suffix;
  }

  /** A failed round trip on `list-user-files` becomes one block with the
      upstream client's message, without a MIME type. */
  lemma UserFilesFailure(args: Arguments, apiKey: string, fetch: HttpRequest -> FetchOutcome)
    requires !Delivers(fetch(UserFilesRequest(args, apiKey)))
    ensures CallTool("list-user-files", args, apiKey, fetch)
         == Single(None, "Failed to retrieve user files: " + FailureMessage(fetch(UserFilesRequest(args, apiKey))))
  {
  }

  /** A delivered array, or object without an `error` key, is passed through
      whole: one `application/json` block whose text decodes to the payload. */
  lemma UserFilesPassThrough(args: Arguments, apiKey: string, fetch: HttpRequest -> FetchOutcome,
                              status: nat, payload: Value)
    requires fetch(UserFilesRequest(args, apiKey)) == Responded(status, Parsed(payload)) && IsOk(status)
    requires payload.Arr? || (payload.Obj? && Lookup(payload.members, "error").None?)
    ensures var r := CallTool("list-user-files", args, apiKey, fetch);
      && r.Returned? && |r.result.content| == 1
      && r.result.content[0].mimeType == Some(JsonMime)
      && JsonText.Parse(r.result.content[0].text) == Some(payload)
  {
    JsonText.StringifyIndentedRoundTrip(payload);
  }

  /** Each field of the `list-user-files` body is the argument when it is
      present and truthy, and otherwise the default the catalogue declares:
      so an explicit 0 limit is sent as 10. */
  lemma UserFilesDefaults(args: Arguments)
    ensures var body := UserFilesBody(args);
      var limit := Arg(args, "limit");
      var offset := Arg(args, "offset");
      var orderDir := Arg(args, "order_dir");
      && body == Obj([("pagination", Obj([("limit", OrElse(limit, Num(10))), ("offset", OrElse(offset, Num(0)))])),
                      ("order_dir", OrElse(orderDir, Str("desc")))])
      && (limit.None? || !Truthy(limit.value) ==> Some(OrElse(limit, Num(10))) == DeclaredDefault(ListTools()[1], "limit"))
      && (offset.None? || !Truthy(offset.value) ==> Some(OrElse(offset, Num(0))) == DeclaredDefault(ListTools()[1], "offset"))
      && (orderDir.None? || !Truthy(orderDir.value) ==> Some(OrElse(orderDir, Str("desc"))) == DeclaredDefault(ListTools()[1], "order_dir"))
      && (limit.Some? && Truthy(limit.value) ==> OrElse(limit, Num(10)) == limit.value)
      && (limit == Some(Num(0)) ==> OrElse(limit, Num(10)) == Num(10))
  {
  }

  /** `order_dir` is not checked against its declared `enum`: any non-empty
      string is sent upstream as given. */
  lemma OrderDirUnchecked(args: Arguments, dir: string)
    requires Arg(args, "order_dir") == Some(Str(dir)) && dir != ""
    ensures UserFilesBody(args).members[1] == ("order_dir", Str(dir))
    ensures dir !in ListUserFilesTool.inputSchema.properties[2].allowed ==>
      !(exists a :: a in ListUserFilesTool.inputSchema.properties[2].allowed && UserFilesBody(args).members[1].1 == Str(a))
  {
  }
}
