/**
  The standalone entry point: startup (parse the command line, print help,
  resolve the API key or stop) and its own handlers, which serve only
  `fetch-embeddings`. Its argument parser is a textual copy of the one
  `Cli.ParseArgs` models. Its upstream client takes no key argument and reads
  the key resolved at startup instead; otherwise it is the client
  `Api.MakeSupavecRequest` models, which is used here with that key.
 */
module Entry {
  import opened Wrappers
  import opened JsValue
  import Cli
  import Api
  import Tools

  /** How startup ends: help printed and exit status 0, error lines printed
      and exit status 1, or the server started with the resolved key. */
  datatype Launch = Help | Fail(lines: seq<string>) | Serve(apiKey: string)

  const MissingKeyLines: seq<string> := [
    "Error: Supavec API key is required",
    "Provide it via --api-key argument or SUPAVEC_API_KEY environment variable",
    "Use --help for more information"
  ]

  /** `cmdApiKey || process.env.SUPAVEC_API_KEY || ""`, with the variable
      absent (`None`) or set. A non-empty command-line key wins, then a
      non-empty environment value; an empty one counts as missing. */
  function ApiKeyFrom(cmd: string, env: Option<string>): (k: string)
    ensures cmd != "" ==> k == cmd
    ensures cmd == "" ==> k == if env.Some? then env.value else ""
    ensures k == "" <==> cmd == "" && (env.None? || env.value == "")
  {
    var fromEnv := if env.Some? then Some(Str(env.value)) else None;
    var v := OrElse(Some(Str(cmd)), OrElse(fromEnv, Str("")));
    v.s
  }

  /** The startup sequence. A parse error stops the process before help is
      considered, so `-h --bogus` fails; help is printed before the key is
      looked at, so `-h` alone succeeds without a key. */
  method Startup(argv: seq<string>, env: Option<string>) returns (l: Launch)
    ensures var parsed := Cli.Scan(Cli.UserArgs(argv), Cli.Initial);
      && (parsed.Err? ==> l == Fail(Cli.Message(parsed.error)))
      && (parsed.Ok? && parsed.value.showHelp ==> l == Help)
      && (parsed.Ok? && !parsed.value.showHelp ==>
            var key := ApiKeyFrom(parsed.value.apiKey, env);
            l == if key == "" then Fail(MissingKeyLines) else Serve(key))
    ensures l.Serve? ==> l.apiKey != ""
  {
    var parsed := Cli.ParseArgs(argv);
    if parsed.Err? {
      return Fail(Cli.Message(parsed.error));
    }
    var options := parsed.value;
    if options.showHelp {
      return Help;
    }
    var apiKey := ApiKeyFrom(options.apiKey, env);
    if apiKey == "" {
      return Fail(MissingKeyLines);
    }
    return Serve(apiKey);
  }

  /** The catalogue this entry point lists: `fetch-embeddings` alone, with the
      same description and input schema as the server module's entry. */
  function ListTools(): (tools: seq<Tools.Tool>)
    ensures Tools.Names(tools) == ["fetch-embeddings"]
    ensures tools == Tools.ListTools()[..1]
  {
    var tool := Tools.Tool("fetch-embeddings", "Fetch embeddings for a file by ID and query",
      Tools.InputSchema(
        [ Tools.Param("file_id", Tools.StringParam, "ID of the file to get embeddings for", [], None),
          Tools.Param("query", Tools.StringParam, "Query to search for in the file", [], None) ],
        ["file_id", "query"]));
    assert Tools.Names([tool]) == [tool.name] + Tools.Names([]);
    [tool]
  }

  /** This entry point's call handler: `fetch-embeddings` behaves exactly as in
      the server module; every other name, `list-user-files` included, throws
      "Tool not found". */
  function CallTool(name: string, args: Tools.Arguments, apiKey: string,
                    fetch: Api.HttpRequest -> Api.FetchOutcome): (r: Tools.CallOutcome)
    ensures name in Tools.Names(ListTools()) ==> r == Tools.CallTool(name, args, apiKey, fetch)
    ensures r == Tools.ToolNotFound <==> name !in Tools.Names(ListTools())
  {
    if name == "fetch-embeddings" then Tools.FetchEmbeddings(args, apiKey, fetch)
    else Tools.ToolNotFound
  }

  /** The two entry points agree on every name but `list-user-files`, which
      only the server module serves. */
  lemma EntryPointsDiffer(name: string, args: Tools.Arguments, apiKey: string,
                          fetch: Api.HttpRequest -> Api.FetchOutcome)
    ensures name != "list-user-files" ==> CallTool(name, args, apiKey, fetch) == Tools.CallTool(name, args, apiKey, fetch)
    ensures name == "list-user-files" ==>
      CallTool(name, args, apiKey, fetch) == Tools.ToolNotFound != Tools.CallTool(name, args, apiKey, fetch)
  {
  }
}
