# Supavec MCP server — a Dafny model of its decision logic

The Supavec MCP server is a Model Context Protocol tool server. It exposes
two tools to an MCP client:

- `fetch-embeddings` finds the passages of one uploaded file that match a query.
- `list-user-files` lists the files a user has uploaded.

It answers each call with a POST to the Supavec HTTP API. Most of the program
is plumbing. This project models the parts that make decisions:

- **The call handler and its catalogue** (module `Tools`):
  - the two-tool catalogue;
  - routing by tool name;
  - `||` defaulting of the `list-user-files` arguments;
  - the request body each tool sends;
  - how the upstream value becomes exactly one text content block: a
    `Failed to retrieve …` message, or JSON text tagged `application/json`.
- **The upstream client** `makeSupavecRequest` (module `Api`). It folds a
  thrown `fetch`, a non-2xx status or a decoded body into either the payload
  or an `{error}` record. The network round trip is a function parameter
  `fetch` from the request sent to the outcome, so the model can say which
  request each call sends.
- **The command-line parser** `parseArgs` (module `Cli`). It is an
  imperative loop whose index the `--api-key <key>` form advances twice. It
  is proved against a recursive scan function, and the parser's promises are
  stated as lemmas about that function.
- **The standalone entry point** `src/index.ts` (module `Entry`):
  - startup: parse, then help, then key resolution;
  - its one-tool catalogue and call handler, which the model relates to the
    server module's own.

The standalone entry point also holds its own `parseArgs` and
`makeSupavecRequest`. Its `parseArgs` is textually identical to the one in
`src/utils/cli.ts`, so `Cli.ParseArgs` models both. Its
`makeSupavecRequest` takes only the URL and the body and reads the
module-level key resolved at startup (src/index.ts:77). Otherwise it does
what `src/utils/api.ts` does, so `Api.MakeSupavecRequest` models it with
`apiKey` bound to that key.

Two supporting modules describe the values the handlers work on:

- `JsValue` covers decoded JSON values and the JavaScript conversions the
  handlers apply to them:
  - truthiness, for `||`;
  - `String(v)`, for template literals and `join`;
  - property reads and the `in` operator, with the `TypeError`s they raise.
- `JsonText` gives `JSON.stringify` as ECMA-262 defines it, in the compact
  form and the two-space form. String literals follow section 7 of RFC 8259.
  It also has a JSON parser. Its round-trip lemmas
  (`Parse(Stringify(v)) == Some(v)`, and the same for the indented form)
  show that the text a tool returns decodes to exactly the value it encodes.

## Model

| member | source | states |
|---|---|---|
| JsValue.NatToString | src/utils/api.ts:19 | the decimal rendering of a status code is a non-empty digit string with no leading zero |
| JsValue.DigitsValueOfNatToString | src/utils/api.ts:19 | the decimal text of a status code reads back as that status code |
| JsValue.Join | src/tools/index.ts:99 | `join` of no parts is the empty string, and of one part is that part |
| JsValue.JoinAppend | src/tools/index.ts:99 | joining one more part appends the separator and that part, the left-to-right accumulation ECMA-262 specifies for `join` |
| JsValue.Lookup | src/tools/index.ts:99 | a property read finds a value exactly when the object has that key, and the value found is that key's |
| JsValue.Get | src/tools/index.ts:99 | reading a property throws (TypeError) exactly when the value is null; on an object it yields that key's member or undefined, and on any other value undefined |
| JsValue.HasError | src/tools/index.ts:82 | `"error" in v` is an answer exactly for objects and arrays and a TypeError for any other value; it is true exactly for an object with an `error` member |
| JsonText.DecodeEscapeChar | src/tools/index.ts:98-102 | every character's escaped form decodes back to that character and is consumed whole |
| JsonText.ParseEscape | src/tools/index.ts:98-102 | the escaped body of a string literal, followed by the closing quote, decodes back to the string and leaves the text that follows |
| JsonText.EscapeHasNoControl | src/tools/index.ts:98-102 | escaping leaves no character below U+0020 in the text |
| JsonText.QuoteIsLiteral | src/tools/index.ts:98-102 | the quoted form of any string starts and ends with `"` and contains no raw control character |
| JsonText.SerializeTo | src/tools/index.ts:144 | serialized text is never empty and always starts with a character that opens a JSON value |
| JsonText.ParseNumberPrinted | src/utils/api.ts:15 | the decimal text of any integer parses back to that integer, with the following text left over |
| JsonText.ParseSerialized | src/tools/index.ts:144 | parsing the serialized text of any value, at any indentation and whatever follows it, yields the value and the following text |
| JsonText.StringifyRoundTrip | src/utils/api.ts:15 | the compact JSON text of every value parses back to that value |
| JsonText.StringifyIndentedRoundTrip | src/tools/index.ts:144 | the two-space JSON text of every value parses back to that value |
| JsonText.QuoteRoundTrip | src/tools/index.ts:98-102 | the two-space JSON text of a string is its quoted literal, and that literal parses back to the string |
| Api.Request | src/utils/api.ts:9-16 | every request is a POST to the given URL, with the raw key as `authorization` and `Content-Type: application/json`; its body decodes to the body value |
| Api.MakeSupavecRequest | src/utils/api.ts:3-30 | never throws: a delivered ok payload is returned unchanged and unchecked; a non-ok status, a thrown fetch or an unreadable body becomes `{error: message}`; the copy at src/index.ts:102-128 behaves the same with the key resolved at startup |
| Api.FailureMessageFormat | src/utils/api.ts:17-29 | every failure message starts `Failed to fetch data: `; a status failure continues `status ` with the decimal code, which reads back as the status; a thrown fetch continues with its cause verbatim |
| Tools.ListTools | src/tools/index.ts:12-65 | the catalogue is exactly `fetch-embeddings` then `list-user-files`; `fetch-embeddings` requires `file_id` and `query`, `list-user-files` requires nothing; each required property is declared without a default, and each declared default lies in its enum; `list-user-files` declares the defaults 10, 0 and "desc" |
| Tools.Arg | src/tools/index.ts:70-71 | an argument is present exactly when arguments were given and contain the key, and then it is that key's value, uncoerced |
| Tools.UpstreamError | src/tools/index.ts:82-87 | the failure test throws a TypeError exactly for a payload that is neither object nor array; it reports a failure exactly when the payload is an object with an `error` key |
| Tools.EmbeddingsBody | src/tools/index.ts:75-78 | with both arguments given, the body is `{file_ids: [file_id], query}` |
| Tools.EmbeddingsRequest | src/tools/index.ts:72-80 | `fetch-embeddings` POSTs to `<base>/embeddings` with the key, and the body sent decodes to the embeddings body |
| Tools.Contents | src/tools/index.ts:99 | mapping `d.content` over the documents succeeds exactly when no document is null; the result has one entry per document, each that document's `content` |
| Tools.DocumentsText | src/tools/index.ts:99 | reading the documents fails only with a TypeError |
| Tools.EmbeddingsOutcome | src/tools/index.ts:82-105 | the `fetch-embeddings` branch either throws a TypeError or returns exactly one content block |
| Tools.UserFilesRequest | src/tools/index.ts:109-126 | `list-user-files` POSTs to `<base>/user_files` with the key, and the body sent decodes to the defaulted body |
| Tools.UserFilesOutcome | src/tools/index.ts:128-147 | the `list-user-files` branch either throws a TypeError or returns exactly one content block |
| Tools.CallTool | src/tools/index.ts:67-152 | the call throws "Tool not found" exactly for names not in the catalogue; every returned result has exactly one content block |
| Tools.OnlyRequestMatters | src/tools/index.ts:69-148 | a call's outcome depends on the upstream only through the one request the named tool sends: two upstreams that answer that request alike give the same outcome |
| Tools.EmbeddingsFailure | src/tools/index.ts:82-91 | a failed round trip gives one block without a MIME type: `Failed to retrieve embeddings for <file_id>: <message>` |
| Tools.EmbeddingsSuccess | src/tools/index.ts:93-105 | an object payload with a `documents` array and no `error` gives one `application/json` block; its text decodes to the documents' contents joined by newlines, in upstream order |
| Tools.ContentLinesAgree | src/tools/index.ts:99 | the mapped-and-joined contents equal the documents' `content` texts read one document at a time |
| Tools.ErrorKeyReadsAsFailure | src/tools/index.ts:82-91 | for either tool, a delivered payload that itself has an `error` key is shown as a failure, exactly like an upstream failure |
| Tools.UnreadablePayloadThrows | src/tools/index.ts:82-99 | a delivered primitive payload throws a TypeError for either tool; for `fetch-embeddings` so does an array payload, or an object without `error` whose `documents` is missing, not an array, or holds a null document |
| Tools.StatusFailureReported | src/utils/api.ts:17-21 | for either tool, a non-2xx status gives one block without a MIME type, whose text ends with `Failed to fetch data: status <code>` |
| Tools.UserFilesFailure | src/tools/index.ts:128-137 | a failed round trip gives one block without a MIME type: `Failed to retrieve user files: <message>` |
| Tools.UserFilesPassThrough | src/tools/index.ts:139-147 | an array payload, or an object payload without `error`, gives one `application/json` block whose text decodes to the whole payload |
| Tools.UserFilesDefaults | src/tools/index.ts:109-120 | the body is `{pagination: {limit, offset}, order_dir}`; each field is the argument when it is present and truthy, and otherwise the default the listed catalogue declares, so an explicit 0 limit is sent as 10 |
| Tools.OrderDirUnchecked | src/tools/index.ts:111-120 | any non-empty `order_dir` string is sent as given, even when it lies outside the declared enum |
| Cli.Message | src/utils/cli.ts:15-26 | the error lines: `Error: --api-key requires a value`, or `Error: Unknown argument: <arg>` followed by `Use --help for usage information` |
| Cli.UpTo | src/utils/cli.ts:20 | the text up to the first `=` is a prefix with no `=` in it, and is followed by `=` unless it is the whole text |
| Cli.UserArgs | src/utils/cli.ts:2 | the user arguments are the process arguments after the first two, or none |
| Cli.ParseArgs | src/utils/cli.ts:1-31 | the loop's result is the scan of the user arguments from an empty key and no help, and with no user arguments it is exactly that initial state; the copy at src/index.ts:16-46 is the same loop |
| Cli.ScanAppend | src/utils/cli.ts:6-28 | arguments that scan cleanly hand their state on to whatever follows |
| Cli.HelpRequested | src/utils/cli.ts:9-10 | a scanned `--help` or `-h` turns help on and the scan continues with the next word |
| Cli.HelpIsSticky | src/utils/cli.ts:9-10 | once help is requested it stays requested, and only a `--help` or `-h` word requests it |
| Cli.LastKeyWins | src/utils/cli.ts:11-20 | a key given after a clean scan replaces any earlier key, in the `--api-key <key>` form and in the `--api-key=<key>` form |
| Cli.KeyKept | src/utils/cli.ts:9-22 | words that are not one of the two key forms leave the key unchanged |
| Cli.LastKeyWinsOverall | src/utils/cli.ts:11-22 | a key given as `--api-key <key>`, or as `--api-key=<key>` when the key has no `=`, and followed only by words that are not key forms is the key the scan ends with, so the last occurrence wins wherever it stands |
| Cli.KeyValueTakenVerbatim | src/utils/cli.ts:11-14 | the word after `--api-key` becomes the key whatever it is, even a flag, and is not scanned itself |
| Cli.AssignedKeyStopsAtEquals | src/utils/cli.ts:19-20 | `--api-key=a=b` sets the key to the text before the second `=` |
| Cli.DanglingKeyFlag | src/utils/cli.ts:15-17 | `--api-key` as the last argument is the missing-value error |
| Cli.PositionalIgnored | src/utils/cli.ts:21-22 | a word without a leading `-` changes nothing, wherever it appears |
| Cli.UnknownFlagFatal | src/utils/cli.ts:23-26 | any other `-`-prefixed word stops the scan with itself in the error, whatever follows |
| Entry.ApiKeyFrom | src/index.ts:77 | a non-empty command-line key wins, then the environment value; the result is empty exactly when both are empty or the variable is unset |
| Entry.Startup | src/index.ts:70-86 | a parse error fails with its lines before help is considered; help comes next; then a missing key fails with the three key lines; otherwise the server starts with a non-empty key |
| Entry.ListTools | src/index.ts:130-153 | this catalogue is `fetch-embeddings` alone, identical to the server module's first entry |
| Entry.CallTool | src/index.ts:155-192 | `fetch-embeddings` behaves exactly as in the server module; every other name throws "Tool not found" |
| Entry.EntryPointsDiffer | src/index.ts:155-192 | the two call handlers agree on every name except `list-user-files`, which only the server module serves |

## Left out

- The network, TLS and `fetch` itself are not modelled. The round trip is
  the parameter `fetch`, and a thrown error or unreadable body appears as its
  `${error}` text.
- The MCP SDK is not modelled: `Server`, `setRequestHandler`, the stdio
  transport and `server.connect`. Neither is the `main().catch` handler at
  src/index.ts:194-202. Only the handler bodies are modelled.
- `async`/`await` is not modelled. Each call is one sequential computation.
- `process.argv` and `process.env` are parameters.
- `console.*` and `process.exit` are not modelled. The lines written and the
  exit status are returned as values (`Cli.CliError`, `Entry.Launch`).
- The help text (src/utils/cli.ts:33-53, src/index.ts:48-68) is static
  output. Only the decision to print it is modelled (`Entry.Launch.Help`).
- JavaScript numbers are modelled as integers. Fractions, exponents, NaN,
  -0 and double rounding are not modelled, and the parser reads integers
  only.
- Strings are sequences of Unicode scalar values. Lone surrogates, and
  surrogate `\u` escapes in JSON text, are not modelled.
- A `TypeError`'s message text is engine-specific and is not modelled.
- Objects keep their members in the order given. JavaScript would list
  integer-like keys first.
- Distinct keys within an object are assumed and not enforced.
- Values that `JSON.stringify` skips or rejects cannot occur in a decoded
  value, so they are not modelled: functions, `undefined` members, cycles,
  BigInt and `toJSON`.
- Tool arguments are either absent or a record of decoded values. No other
  shape is modelled.
- Tools.EmbeddingsBody: its contract states the body only when both
  arguments are given. When an argument is absent, the definition writes
  `null` for a missing `file_id` and drops a missing `query`. No contract
  states this.
- src/utils/server.ts is not part of this model: it only wires the
  handlers to the SDK.
- The test files, mocks and test configuration are not part of this model.
