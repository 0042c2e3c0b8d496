# laravel-mcp protocol core in Dafny

This project models the in-memory core of InnoGE/laravel-mcp, a PHP server for the Model
Context Protocol (MCP). It covers:

- the JSON-RPC 2.0 engine (`MCPProtocol`): it classifies each incoming message, routes
  requests to the first registered handler that accepts the method, turns handler exceptions
  into error responses, keeps the table of the server's own pending requests and sends
  notifications;
- the server object (`MCPServer`): the initialize handshake, client capabilities, resource
  subscriptions, the order in which handlers are registered, and the resource notifications;
- the request handlers for `initialize`, `resources/*` and `tools/*`, and the two outgoing-only
  resource notifications;
- the in-memory resource provider with cursor paging, the tool registry and the example
  say-hello tool;
- the server capability builder, the protocol's value types and their array forms, the
  `JsonRpcError` exception, and the `Content-Length` framing of `ReadBuffer`.

PHP values are `Values.Value`. A PHP array is an ordered sequence of key/value pairs; the
`Dict` module gives it PHP's assignment, `unset`, lookup and `array_keys` behaviour. Each
call has an `Errors.Outcome`:

- `Ok(value)`;
- `Throw(exception)`: something a `catch (\Exception $e)` in the code sees;
- `Fatal`: a PHP `Error`, such as a `TypeError`, which such a catch does not intercept.

Objects whose fields the code updates are classes:

- `Protocol.Engine`, `Transport.Transport` and `Session.Session`;
- `Capabilities.ServerCapabilities`, `Provider.InMemoryResourceProvider` and
  `Tools.ToolRegistry`;
- `Framing.ReadBuffer` and `Server.McpServer`.

`MCPServer` is split in two. `Session.Session` holds its mutable state: initialized flag,
client capabilities, subscriptions, server info and capabilities. `Server.McpServer` holds the
protocol and the handler lists. The split lets the handlers reach the state without a module
cycle.

Each handler's behaviour is a pure function of the method, the params and the state it reads
(`Handlers.ReadRequest`, `Handlers.SubscribeRequest`, …). `Handlers.Invoke` applies that
function's effect to the server object. `Protocol.Respond` is the reference answer to a whole
request, and `Protocol.Engine.HandleMessage` is proved to send exactly that answer and to
change nothing but the serving handler's server.

How the code behaves, as modelled:

- Every handler exception reaches the client as code -32000 carrying only the exception's
  message (src/Protocol/MCPProtocol.php:314-317). A JSON-RPC code such as -32002 or -32600
  is not passed on. `Replies.HandlerErrorBecomesServerError` and
  `Replies.UnknownResourceIsServerError` state this.
- A message that is not version 2.0 is answered with -32600 even when it carries no id
  (src/Protocol/MCPProtocol.php:225-233).
- `disconnect` empties the pending table without failing the waiting requests
  (src/Protocol/MCPProtocol.php:72-76).
- The `initialize` result always announces 2024-11-05: `InitializeParams` has no protocol
  version, so the `??` at src/Server/MCPServer.php:215 always takes its default.
- `InMemoryResourceProvider::listResources` sets `nextCursor` whenever the page is full and
  the provider holds more items than the limit. It compares against the total count, not the
  number of items left after the cursor (src/Resources/InMemoryResourceProvider.php:90-94).
  So a full last page still announces a next page, and that page is empty.

## Model

| member | source | states |
|---|---|---|
| Errors.RpcError | src/Utils/JsonRpcError.php:55-58 | a JSON-RPC error carries exactly the code, message and data it was built with |
| Errors.ErrorObject | src/Utils/JsonRpcError.php:74-86 | the error object has code and message, and data only when data is not null |
| Errors.ToArray | src/Utils/JsonRpcError.php:74-86 | an exception's array form holds its code, message and data, and its keys are exactly code and message, followed by data when the data is not null |
| Values.IntToStringInjective | src/Protocol/MCPProtocol.php:115 | the decimal form of the request counter is injective, so distinct counter values give distinct ids |
| Values.StringParam | src/Types/InitializeParams.php:39-45 | PHP's coercive passing to a `string` parameter: strings pass, ints and bools are converted, null and arrays are a TypeError |
| Values.Lookup | src/Protocol/MCPProtocol.php:298 | `$a['k'] ?? null`: the stored value under the key, null when absent |
| Values.IsSet | src/Protocol/MCPProtocol.php:236-256 | `isset`: the key is present and its value is not null |
| Values.Coalesce | src/Protocol/MCPProtocol.php:180-181 | `??`: the value unless it is null, else the default |
| Values.AsString | src/Protocol/MCPProtocol.php:272 | the `(string)` conversion: strings unchanged; only an object without `__toString` fails |
| Values.IntParam | src/Protocol/MCPProtocol.php:181 | an `int` parameter: ints pass unchanged and booleans convert; anything else is a TypeError |
| Values.NullableStringParam | src/Server/RequestHandlers/Resources/ResourceListHandler.php:61 | a `?string` parameter: null passes as none, otherwise as the `string` parameter does |
| Values.ArrayParam | src/Types/InitializeParams.php:39-45 | an `array` parameter: exactly arrays pass, unchanged |
| Dict.Get | src/Tools/ToolRegistry.php:73 | a value is found exactly when the key is present |
| Dict.Put | src/Server/MCPServer.php:283 | `$d[$k] = $v`: the key then holds the value, other keys are unchanged, an existing key keeps its place and a new one goes last |
| Dict.Remove | src/Server/MCPServer.php:293 | `unset($d[$k])`: the key is gone, the other keys keep their values and their order, and removing an absent key changes nothing |
| Dict.Without | src/Server/MCPServer.php:293 | the keys that remain after `unset`: exactly the others, never more than before |
| Types.InitializeParams.ToArray | src/Types/InitializeParams.php:50-56 | the array has exactly the keys version and capabilities, holding the fields |
| Types.InitializeParams.FromArray | src/Types/InitializeParams.php:39-45 | missing keys default to "1.0" and []; a value of the wrong type is a TypeError; nothing is thrown |
| Types.ParamsRoundTrip | src/Types/InitializeParams.php:39-56 | fromArray inverts toArray |
| Types.ParamsIgnoreProtocolVersion | src/Types/InitializeParams.php:39-45 | a protocolVersion key in the client's params has no effect on the parsed params |
| Types.InitializeResult.Create | src/Types/InitializeResult.php:35-43 | serverInfo is exactly {name, version}; capabilities and protocol version are kept |
| Types.InitializeResult.ToArray | src/Types/InitializeResult.php:62-69 | exactly protocolVersion, serverInfo and capabilities, in that order |
| Types.InitializeResult.FromArray | src/Types/InitializeResult.php:50-57 | as written: a string name and version at the top level become serverInfo.name and serverInfo.version, top-level capabilities are kept, missing ones default to "unknown", "1.0" and []; a wrongly typed one is a TypeError; the protocol version is always the default |
| Types.ResultFromArrayLosesServerInfo | src/Types/InitializeResult.php:50-69 | reading back any toArray() gives the server "unknown" 1.0 with the default version |
| Types.ResultFromArrayCounterexample | src/Types/InitializeResult.php:50-69 | the result for "srv" 2.0 does not survive toArray followed by fromArray |
| Types.InitializeResult.FromArrayNested | src/Types/InitializeResult.php:50-69 | corrected reading: name and version come from serverInfo, and the protocol version is kept |
| Types.ResultFromArrayNestedRoundTrip | src/Types/InitializeResult.php:50-69 | the corrected reading inverts toArray for every result |
| ResourceTypes.UriFromArray | src/Types/Resources/ResourceReadParams.php:42-49 | a missing uri throws InvalidArgumentException with the params' message; a string uri is returned; one the `string` parameter refuses is a TypeError |
| ResourceTypes.ResourceItem.ToArray | src/Types/Resources/ResourceItem.php:63-80 | uri and name, then each optional field only when not null, with its value |
| ResourceTypes.ResourceItem.FromArray | src/Types/Resources/ResourceItem.php:90-99 | uri and name are required (a missing one is a TypeError); absent optional fields become null |
| ResourceTypes.ItemRoundTrip | src/Types/Resources/ResourceItem.php:63-99 | fromArray inverts toArray |
| ResourceTypes.ResourceContent.Text | src/Types/Resources/ResourceContent.php:60-63 | text content with no blob; the MIME type defaults to text/plain |
| ResourceTypes.ResourceContent.Binary | src/Types/Resources/ResourceContent.php:73-76 | blob content with no text; the MIME type defaults to application/octet-stream |
| ResourceTypes.ResourceContent.ToArray | src/Types/Resources/ResourceContent.php:83-102 | uri, then mimeType, text and blob only when not null |
| ResourceTypes.ResourceContent.FromArray | src/Types/Resources/ResourceContent.php:110-118 | uri is required; the rest default to null |
| ResourceTypes.ContentRoundTrip | src/Types/Resources/ResourceContent.php:83-118 | fromArray inverts toArray |
| ResourceTypes.ContentKindsAreExclusive | src/Types/Resources/ResourceContent.php:60-102 | text content never serialises a blob and binary content never a text; the MIME defaults appear on the wire |
| ResourceTypes.ResourceTemplate.ToArray | src/Types/Resources/ResourceTemplate.php:57-73 | uriTemplate and name, then description and mimeType only when not null |
| ResourceTypes.ResourceTemplate.FromArray | src/Types/Resources/ResourceTemplate.php:81-89 | uriTemplate and name are required; the rest default to null |
| ResourceTypes.TemplateRoundTrip | src/Types/Resources/ResourceTemplate.php:57-89 | fromArray inverts toArray |
| ResourceTypes.ResourceListParams.ToArray | src/Types/Resources/ResourceListParams.php:30-39 | {} for a null cursor, {cursor} otherwise |
| ResourceTypes.ResourceListParams.FromArray | src/Types/Resources/ResourceListParams.php:46-51 | a missing cursor is null; a string cursor is kept |
| ResourceTypes.ListParamsRoundTrip | src/Types/Resources/ResourceListParams.php:30-51 | fromArray inverts toArray |
| ResourceTypes.ResourceReadParams.FromArray | src/Types/Resources/ResourceReadParams.php:42-49 | a missing uri throws InvalidArgumentException "URI is required for resource read params"; a wrongly typed uri is a TypeError |
| ResourceTypes.ResourceSubscribeParams.FromArray | src/Types/Resources/ResourceSubscribeParams.php:45-52 | the same, with the subscribe message |
| ResourceTypes.ResourceUnsubscribeParams.FromArray | src/Types/Resources/ResourceUnsubscribeParams.php:42-49 | the same, with the unsubscribe message |
| ResourceTypes.ResourceReadParams.ToArray | src/Types/Resources/ResourceReadParams.php:30-35 | exactly {uri} |
| ResourceTypes.ResourceSubscribeParams.ToArray | src/Types/Resources/ResourceSubscribeParams.php:32-37 | exactly {uri} |
| ResourceTypes.ResourceUnsubscribeParams.ToArray | src/Types/Resources/ResourceUnsubscribeParams.php:30-35 | exactly {uri} |
| ResourceTypes.UriParamsRoundTrip | src/Types/Resources/ResourceReadParams.php:30-49 | fromArray inverts toArray for the three single-URI parameter types |
| ResourceTypes.ResourceListResult.ToArray | src/Types/Resources/ResourceListResult.php:39-50 | the items' array forms in order, and nextCursor only when not null |
| ResourceTypes.ResourceReadResult.ToArray | src/Types/Resources/ResourceReadResult.php:32-37 | {contents: the contents' array forms in order} |
| ResourceTypes.ResourceTemplatesListResult.ToArray | src/Types/Resources/ResourceTemplatesListResult.php:32-37 | {resourceTemplates: the templates' array forms in order} |
| Capabilities.ResourcesConfig | src/Server/ServerCapabilities.php:60-74 | subscribe and listChanged keys are present, and true, exactly when requested |
| Capabilities.ConfigValue | src/Server/ServerCapabilities.php:121-142 | a given config as an array, a null config as an empty object |
| Capabilities.Entry | src/Server/ServerCapabilities.php:121-142 | a supported capability is one key holding its config value; an unsupported one adds nothing |
| Capabilities.ServerCapabilities.constructor | src/Server/ServerCapabilities.php:121-142 | a new builder supports nothing and serialises to [] |
| Capabilities.ServerCapabilities.ToArray | src/Server/ServerCapabilities.php:121-142 | one key per supported capability in the order resources, tools, prompts, sampling; a null config is an empty object |
| Capabilities.ServerCapabilities.WithResources | src/Server/ServerCapabilities.php:60-74 | resources are enabled with that config, the other capabilities are unchanged, and the builder itself is returned |
| Capabilities.ServerCapabilities.WithTools | src/Server/ServerCapabilities.php:82-88 | tools are enabled with the given config (default []), nothing else changes, and the builder itself is returned |
| Capabilities.ServerCapabilities.WithPrompts | src/Server/ServerCapabilities.php:96-102 | the same for prompts |
| Capabilities.ServerCapabilities.WithSampling | src/Server/ServerCapabilities.php:110-116 | the same for sampling |
| Capabilities.PlainResourcesIsEmptyArray | src/Server/ServerCapabilities.php:60-74 | withResources() without flags serialises to an empty list |
| Capabilities.NullConfigIsEmptyObject | src/Server/ServerCapabilities.php:121-142 | a null config serialises as an empty object |
| Capabilities.EnableToolsThenResources | src/Server/ServerCapabilities.php:60-142 | the serialised order is fixed by toArray, not by the call order |
| Provider.Slice | src/Resources/InMemoryResourceProvider.php:87-88 | array_slice from 0: a prefix of min(limit, count) items; a negative limit drops that many from the end |
| Provider.ReadContents | src/Resources/InMemoryResourceProvider.php:120-127 | one content when stored under the URI, else an exception "Resource not found: uri" |
| Provider.After | src/Resources/InMemoryResourceProvider.php:71-85 | the items after the cursor are fewer than the items, unless there are none |
| Provider.ListPage | src/Resources/InMemoryResourceProvider.php:66-97 | a next cursor is only ever given for a full, non-empty page when the provider holds more than limit items, and it is the page's last uri |
| Provider.InMemoryResourceProvider.constructor | src/Resources/InMemoryResourceProvider.php:43-57 | a new provider is empty |
| Provider.InMemoryResourceProvider.AddResource | src/Resources/InMemoryResourceProvider.php:43-47 | item and content are stored under the item's uri, replacing what was there; other URIs read as before |
| Provider.InMemoryResourceProvider.AddResourceTemplate | src/Resources/InMemoryResourceProvider.php:54-57 | the template is stored under its uri template; resources are unchanged |
| Provider.InMemoryResourceProvider.ListResources | src/Resources/InMemoryResourceProvider.php:66-97 | the loop's page equals the reference ListPage over the stored items |
| Provider.InMemoryResourceProvider.ListResourceTemplates | src/Resources/InMemoryResourceProvider.php:107-110 | the stored templates in insertion order |
| Provider.InMemoryResourceProvider.ReadResource | src/Resources/InMemoryResourceProvider.php:120-127 | succeeds exactly when content is stored under the URI |
| Provider.InMemoryResourceProvider.ResourceExists | src/Resources/InMemoryResourceProvider.php:135-138 | true exactly when an item is stored under the URI |
| Provider.InMemoryResourceProvider.Source | src/Resources/ResourceProviderInterface.php:22-47 | the provider's answers as the handlers see them, none throwing |
| Provider.PageBounds | src/Resources/InMemoryResourceProvider.php:66-97 | a page holds at most limit items and at most the provider's count |
| Provider.FirstPageIsPrefix | src/Resources/InMemoryResourceProvider.php:66-97 | without a cursor, the page is the first limit items |
| Provider.AfterFirstMatch | src/Resources/InMemoryResourceProvider.php:71-85 | a cursor resumes right after the first item with that uri |
| Provider.UnknownCursorGivesEmptyPage | src/Resources/InMemoryResourceProvider.php:71-94 | a cursor no item carries gives an empty page and no next cursor |
| Provider.NextCursorCondition | src/Resources/InMemoryResourceProvider.php:90-94 | nextCursor is set exactly when the page is full (limit > 0 items) and the provider holds more than limit items, and it is the page's last uri |
| Provider.SecondPage | src/Resources/InMemoryResourceProvider.php:66-97 | following the first page's cursor gives the next limit items |
| Provider.NextCursorAfterLastPage | src/Resources/InMemoryResourceProvider.php:90-94 | with three items and limit 2, resuming after the first announces a next cursor although nothing follows |
| Provider.StoredUrisAreDistinct | src/Resources/InMemoryResourceProvider.php:43-47 | items kept by uri have pairwise different uris |
| Provider.ReadAfterPut | src/Resources/InMemoryResourceProvider.php:43-47 | after storing, the URI reads that content and other URIs are unaffected |
| Tools.Tool.Name | src/Tools/Examples/HelloTool.php:15-18 | the say-hello tool is named "say-hello" |
| Tools.Tool.Description | src/Tools/Examples/HelloTool.php:23-26 | "Say hello to someone" |
| Tools.Tool.InputSchema | src/Tools/Examples/HelloTool.php:31-43 | an object schema with one required string property, name |
| Tools.Tool.Execute | src/Tools/Examples/HelloTool.php:48-53 | the say-hello tool returns a string or fails with a TypeError |
| Tools.HelloGreetsName | src/Tools/Examples/HelloTool.php:48-53 | a string name gives "Hello, name!" |
| Tools.HelloDefaultsToWorld | src/Tools/Examples/HelloTool.php:48-53 | without a name, "Hello, world!" |
| Tools.HelloGreetsArrayAsArray | src/Tools/Examples/HelloTool.php:48-53 | an array name is interpolated as "Array" |
| Tools.Schema | src/Tools/ToolRegistry.php:83-87 | {name, description, inputSchema} taken from the tool |
| Tools.Schemas | src/Tools/ToolRegistry.php:79-91 | one schema per tool, in order |
| Tools.Registered | src/Tools/ToolRegistry.php:33-46 | an instance is stored under its own name; a class name the container cannot build as a Tool throws InvalidArgumentException and stores nothing |
| Tools.RegisteredAllKeyedByName | src/Tools/ToolRegistry.php:51-58 | registering many keeps every tool under its own name |
| Tools.RegisteredAll | src/Tools/ToolRegistry.php:51-58 | registering many keeps one entry per name |
| Tools.RegisteredInstancesAreFound | src/Tools/ToolRegistry.php:33-58 | registering instances never fails; every tool that no later tool shares a name with is found under its name, and names none of them has keep their entry |
| Tools.ToolRegistry.constructor | src/Tools/ToolRegistry.php:25 | a new registry is empty and keeps its container |
| Tools.ToolRegistry.Register | src/Tools/ToolRegistry.php:33-46 | the new table is the one Registered gives; on failure nothing changes |
| Tools.ToolRegistry.RegisterMany | src/Tools/ToolRegistry.php:51-58 | registers in order, stops at the first failure and keeps what was registered before it |
| Tools.ToolRegistry.GetTools | src/Tools/ToolRegistry.php:63-66 | the table by name in registration order |
| Tools.ToolRegistry.GetTool | src/Tools/ToolRegistry.php:71-74 | found exactly when a tool is registered under the name, and that tool has that name |
| Tools.ToolRegistry.GetToolSchemas | src/Tools/ToolRegistry.php:79-91 | the loop yields the schema list of the registered tools in order |
| Tools.SchemaNamesAreKeys | src/Tools/ToolRegistry.php:79-91 | the i-th schema is named by the i-th registration key |
| Transport.Transport.constructor | src/Transports/TransportInterface.php:16-40 | a new transport is disconnected and has sent nothing |
| Transport.Transport.Connect | src/Transports/TransportInterface.php:16 | connected afterwards; nothing is sent |
| Transport.Transport.Disconnect | src/Transports/TransportInterface.php:21 | disconnected afterwards; nothing is sent |
| Transport.Transport.IsConnected | src/Transports/TransportInterface.php:40 | the current connection state |
| Transport.Transport.Send | src/Transports/TransportInterface.php:28 | when connected, the message is appended to what was sent; otherwise a RuntimeException and nothing is written |
| Session.InitializeStep | src/Server/MCPServer.php:199-229 | refused with -32600 once initialized; otherwise marks initialized, records the client capabilities and succeeds exactly when the server info has a name and version the `string` parameter accepts (a string, an int or a bool) |
| Session.ClientCapabilities | src/Server/MCPServer.php:244-251 | RuntimeException "Server not initialized" before initialize, else the recorded capabilities |
| Session.InitializedStaysInitialized | src/Server/MCPServer.php:199-229 | whatever happens, the server is initialized after initialize |
| Session.SecondInitializeIsRefused | src/Server/MCPServer.php:201-203 | a second initialize throws code -32600 and leaves the state as it is |
| Session.CapabilitiesAfterInitialize | src/Server/MCPServer.php:209-251 | after the first initialize, getClientCapabilities returns what the client sent |
| Session.ProtocolVersionIsAlwaysDefault | src/Server/MCPServer.php:215 | a successful result always announces 2024-11-05 |
| Session.SubscribeIsIdempotent | src/Server/MCPServer.php:281-284 | subscribing twice is subscribing once |
| Session.Session.constructor | src/Server/MCPServer.php:78-81 | not initialized, no client capabilities, no subscriptions |
| Session.Session.Initialize | src/Server/MCPServer.php:199-229 | the result and the new state are those of InitializeStep; subscriptions are unchanged |
| Session.Session.IsInitialized | src/Server/MCPServer.php:234-237 | the initialized flag |
| Session.Session.GetClientCapabilities | src/Server/MCPServer.php:244-251 | agrees with ClientCapabilities on the current state |
| Session.Session.AddResourceSubscription | src/Server/MCPServer.php:281-284 | the URI is subscribed afterwards and no other URI changes; a new URI goes to the end of `getResourceSubscriptions()`, an existing one keeps its place |
| Session.Session.RemoveResourceSubscription | src/Server/MCPServer.php:291-294 | the URI is not subscribed afterwards, no other URI changes, and removing an absent URI changes nothing; `getResourceSubscriptions()` keeps the order of the remaining URIs |
| Session.Session.HasResourceSubscription | src/Server/MCPServer.php:302-305 | true exactly when the URI is in the table |
| Session.Session.GetResourceSubscriptions | src/Server/MCPServer.php:312-315 | exactly the subscribed URIs, each once |
| Handlers.Param | src/Server/RequestHandlers/Resources/ResourceListHandler.php:53-76 | `$params['k'] ?? null` on nullable params |
| Handlers.Rethrown | src/Server/RequestHandlers/Resources/ResourceReadHandler.php:77-84 | a JsonRpcError passes unchanged; any other exception becomes -32603 with the handler's prefix |
| Handlers.Wrapped | src/Server/RequestHandlers/Resources/ResourceReadHandler.php:77-84 | a JsonRpcError with code -32603 and the handler's prefix before the original message |
| Handlers.NotFound | src/Server/RequestHandlers/Resources/ResourceReadHandler.php:66-72 | code -32002, message "Resource not found", data {uri} |
| Handlers.InitializeRequest | src/Server/RequestHandlers/InitializeHandler.php:52-66 | another method throws; missing params throw -32602; it succeeds exactly on a first initialize with parseable params and a server info whose name and version the `string` parameter accepts (a string, an int or a bool); the success array is {protocolVersion: 2024-11-05, serverInfo: {name, version}, capabilities}; the state changes only on a first initialize |
| Handlers.ListRequest | src/Server/RequestHandlers/Resources/ResourceListHandler.php:53-76 | another method throws; a typed cursor lists that page as a ResourceListResult; whatever it throws is a JsonRpcError |
| Handlers.Existing | src/Server/RequestHandlers/Resources/ResourceReadHandler.php:66-72 | the provider's existence check, with not found as -32002 |
| Handlers.ReadRequest | src/Server/RequestHandlers/Resources/ResourceReadHandler.php:53-85 | another method throws; a missing uri throws -32602; an unknown URI throws -32002; it succeeds exactly for an existing URI, with the read result |
| Handlers.TemplatesRequest | src/Server/RequestHandlers/Resources/ResourceTemplatesListHandler.php:52-68 | succeeds exactly for its method when the provider lists, with the templates result |
| Handlers.SubscribeRequest | src/Server/RequestHandlers/Resources/ResourceSubscribeHandler.php:60-95 | succeeds exactly for an existing URI, with [] and the URI added; subscriptions are unchanged on failure |
| Handlers.UnsubscribeRequest | src/Server/RequestHandlers/Resources/ResourceUnsubscribeHandler.php:60-95 | succeeds exactly for an existing URI, with [] and the URI removed; subscriptions are unchanged on failure |
| Handlers.ToolsListRequest | src/Tools/ToolServer.php:63-70 | {tools: the registry's schemas} for any method |
| Handlers.ResultText | src/Tools/ToolServer.php:123 | a string result is kept; anything else is json_encode'd, or false when that fails |
| Handlers.CallContent | src/Tools/ToolServer.php:118-126 | {content: [{type: text, text}]} |
| Handlers.ToolsCallRequest | src/Tools/ToolServer.php:98-130 | a missing name throws RuntimeException "Tool name not specified"; an unknown tool throws "Unknown tool: name"; the tool's own exceptions pass through; tools/call wraps the result as text content and tools/execute as {result} |
| Handlers.RequestHandler.CanHandle | src/Server/RequestHandlers/Resources/ResourceListHandler.php:39-42 | each handler accepts exactly its method; the tool-call handler accepts tools/call and tools/execute |
| Handlers.RequestHandler.Run | src/Protocol/RequestHandler.php:22-30 | a handler refuses a method it does not serve; only handlers holding the server change its state |
| Handlers.Invoke | src/Server/RequestHandlers/Resources/ResourceSubscribeHandler.php:60-95 | the call returns Run's outcome and leaves the server in Run's state |
| Handlers.NotificationHandler.CanHandle | src/Server/NotificationHandlers/Resources/ResourceUpdatedNotification.php:62-65 | each accepts exactly its own method |
| Handlers.NotificationHandler.HandleNotification | src/Server/NotificationHandlers/Resources/ResourceListChangedNotification.php:46-50 | always throws: the notification is outgoing only |
| Handlers.UpdatedParams | src/Server/NotificationHandlers/Resources/ResourceUpdatedNotification.php:35-40 | exactly {uri} |
| Protocol.RequestMessage | src/Protocol/MCPProtocol.php:118-126 | {jsonrpc, id, method}, plus params only when given |
| Protocol.NotificationMessage | src/Protocol/MCPProtocol.php:204-211 | {jsonrpc, method}, plus params only when given; no id |
| Protocol.SuccessResponse | src/Protocol/MCPProtocol.php:356-369 | exactly {jsonrpc, id, result} |
| Protocol.ErrorResponse | src/Protocol/MCPProtocol.php:379-395 | exactly {jsonrpc, id, error: {code, message}}, and no result |
| Protocol.Classify | src/Protocol/MCPProtocol.php:222-263 | a partition of messages: wrong version, response, request, notification, ignored, unrecognised with an id; each with its exact condition |
| Protocol.Recorded | src/Protocol/MCPProtocol.php:270-288 | corrected reading, calling the promise's closures: a response completes only its own pending request, with its error or `result ?? null`; an unknown id changes nothing; an id `(string)` cannot convert (an object) is an Error; other ids are cast |
| Protocol.RecordedAsWritten | src/Protocol/MCPProtocol.php:270-288 | as written: an unknown id changes nothing; for a pending id `$promise->reject(...)` or `$promise->resolve(...)` is an Error (undefined method) and the table is unchanged |
| Protocol.Settled | src/Protocol/MCPProtocol.php:175-186 | an error becomes a JsonRpcError with its message and code (defaults "Unknown error" and -32000); otherwise the result |
| Protocol.ParamsOf | src/Protocol/MCPProtocol.php:298-305 | params pass to a handler when null or an array; anything else is a TypeError |
| Protocol.First | src/Protocol/MCPProtocol.php:303-310 | the index of the first element that accepts, with none before it accepting; none when no element accepts |
| Protocol.FirstHandler | src/Protocol/MCPProtocol.php:303-310 | the first registered handler that accepts the method, or none accepts it |
| Protocol.FirstNotificationHandler | src/Protocol/MCPProtocol.php:332-338 | the first registered notification handler that accepts the method |
| Protocol.ReplyTo | src/Protocol/MCPProtocol.php:305-317 | success becomes a success response (or -32000 without an id); any exception becomes -32000 with its message; a TypeError escapes |
| Protocol.Respond | src/Protocol/MCPProtocol.php:295-318 | the reference answer to a request: never an exception, the serving handler if any, and no effect when none serves |
| Protocol.Notified | src/Protocol/MCPProtocol.php:325-346 | no handler registered means nothing happens; a handler's exception becomes a log line and is not thrown |
| Protocol.FreshId | src/Protocol/MCPProtocol.php:115-153 | the next id is not pending |
| Protocol.Engine.constructor | src/Protocol/MCPProtocol.php:55-59 | no handlers, nothing pending, ids start at 1 |
| Protocol.Engine.Connect | src/Protocol/MCPProtocol.php:64-67 | the transport is connected |
| Protocol.Engine.Disconnect | src/Protocol/MCPProtocol.php:72-76 | the transport is disconnected and nothing is pending; handlers and counter are unchanged |
| Protocol.Engine.RegisterRequestHandler | src/Protocol/MCPProtocol.php:83-86 | appended after the registered handlers |
| Protocol.Engine.RegisterNotificationHandler | src/Protocol/MCPProtocol.php:93-96 | appended after the registered notification handlers |
| Protocol.Engine.SendRequest | src/Protocol/MCPProtocol.php:108-156 | refused with nothing changed when disconnected; otherwise a fresh id from the counter, the request waiting under it and written once |
| Protocol.Engine.Finish | src/Protocol/MCPProtocol.php:160-186 | keeps waiting until completed; then the request is removed and ends as Settled says |
| Protocol.Engine.Timeout | src/Protocol/MCPProtocol.php:165-168 | a positive timeout drops the request and fails with "Request timed out after N seconds"; 0 never fires |
| Protocol.Engine.SendNotification | src/Protocol/MCPProtocol.php:197-215 | refused when disconnected; otherwise the notification message is written once |
| Protocol.Engine.HandleResponse | src/Protocol/MCPProtocol.php:270-288 | the pending table becomes what the corrected Recorded gives; nothing is sent |
| Protocol.Engine.Reply | src/Protocol/MCPProtocol.php:356-395 | sends ReplyTo's answer, or lets the TypeError escape with nothing sent |
| Protocol.Engine.SendGuarded | src/Protocol/MCPProtocol.php:301-317 | the message is sent as Transport.Send does; if that throws, the catch sends -32000 with the exception's message, which fails the same way when disconnected |
| Protocol.Engine.Serve | src/Protocol/MCPProtocol.php:305-317 | runs the handler, applies its effect and sends ReplyTo's answer |
| Protocol.Engine.ServeAt | src/Protocol/MCPProtocol.php:303-317 | once the first accepting handler is found: the params must be an array or null, then Respond's answer is sent and only that handler's server changes |
| Protocol.Engine.RejectUnknown | src/Protocol/MCPProtocol.php:303-313 | when no handler accepts the method: Respond's -32601 answer is sent, or the TypeError of a method that is not a string escapes; no server changes |
| Protocol.Engine.HandleIncomingRequest | src/Protocol/MCPProtocol.php:295-318 | sends exactly Respond's answer, applies the serving handler's effect, and leaves every other server unchanged |
| Protocol.Engine.HandleIncomingNotification | src/Protocol/MCPProtocol.php:325-346 | the outcome Notified gives; nothing is sent |
| Protocol.Engine.HandleMessage | src/Protocol/MCPProtocol.php:222-263 | per Classify: -32600 for the wrong version or an unrecognised message with an id, response handling, request serving and notification handling; other messages are ignored |
| Server.NotifyUpdated | src/Server/NotificationHandlers/Resources/ResourceUpdatedNotification.php:35-40 | one notifications/resources/updated message carrying {uri} |
| Server.NotifyListChanged | src/Server/NotificationHandlers/Resources/ResourceListChangedNotification.php:33-36 | one notifications/resources/list_changed message without params |
| Server.McpServer.constructor | src/Server/MCPServer.php:77-85 | a fresh uninitialized session, default capabilities when none are given, and the initialize handler registered first |
| Server.McpServer.RegisterRequestHandler | src/Server/MCPServer.php:112-116 | appended to the server's list and to the protocol's |
| Server.McpServer.RegisterNotificationHandler | src/Server/MCPServer.php:123-127 | appended to both notification lists |
| Server.McpServer.Start | src/Server/MCPServer.php:132-135 | the transport is connected |
| Server.McpServer.Stop | src/Server/MCPServer.php:140-143 | the transport is disconnected and nothing is pending |
| Server.McpServer.NotifyResourceUpdated | src/Server/MCPServer.php:322-328 | the updated notification is sent exactly when the URI has a subscriber |
| Server.McpServer.NotifyResourceListChanged | src/Server/MCPServer.php:333-337 | the list-changed notification is always sent |
| Server.McpServer.SetupResourceFeature | src/Server/MCPServer.php:344-358 | the five resource handlers and then the two notifications, in order, on both lists |
| Server.RegisterToolHandlers | src/Tools/ToolServer.php:28-37 | the tools/list handler and then the tools/call handler, on both lists |
| Server.ResourceHandlers | src/Server/MCPServer.php:347-351 | the i-th resource handler accepts the i-th resource method |
| Framing.Find | src/Utils/ReadBuffer.php:38 | strpos: the leftmost occurrence, or none anywhere |
| Framing.HeaderMatch | src/Utils/ReadBuffer.php:46 | the leftmost caseless match of "Content-Length: " followed by a digit |
| Framing.ContentLength | src/Utils/ReadBuffer.php:50 | the (int) cast of the captured digits, which saturates at PHP_INT_MAX |
| Framing.Interpret | src/Utils/ReadBuffer.php:65-71 | a decoding failure throws "Invalid JSON message: …"; an array is returned; null as none; other values are a TypeError |
| Framing.Read | src/Utils/ReadBuffer.php:35-72 | a read that consumes anything consumes at least the blank line; a message read always consumes, leaving a suffix |
| Framing.ReadBuffer.constructor | src/Utils/ReadBuffer.php:16 | an empty buffer |
| Framing.ReadBuffer.Append | src/Utils/ReadBuffer.php:23-26 | the data is added at the end |
| Framing.ReadBuffer.ReadMessage | src/Utils/ReadBuffer.php:35-72 | the outcome and the new buffer are those of Read |
| Framing.ReadBuffer.Clear | src/Utils/ReadBuffer.php:77-80 | the buffer is empty |
| Framing.NoSeparatorIsIncomplete | src/Utils/ReadBuffer.php:38-41 | without a blank line there is no message and nothing is consumed |
| Framing.MalformedHeaderThrows | src/Utils/ReadBuffer.php:43-48 | a header without Content-Length throws "Invalid message header: …" and leaves the buffer |
| Framing.RemainderIsSuffix | src/Utils/ReadBuffer.php:35-72 | a read only ever removes a prefix |
| Framing.CompleteFrameIsConsumed | src/Utils/ReadBuffer.php:50-63 | with enough bytes the header and the body are removed |
| Framing.FrameRoundTrip | src/Utils/ReadBuffer.php:35-72 | a well-formed frame reads back as its decoded body, leaving what follows |
| Framing.TwoFrames | src/Utils/ReadBuffer.php:35-72 | back-to-back frames are read in order |
| Framing.CompleteReadIsStable | src/Utils/ReadBuffer.php:35-72 | once a frame is complete, more input does not change what is read |
| Framing.ClearedBufferIsEmpty | src/Utils/ReadBuffer.php:77-80 | after clear nothing can be read |
| Replies.FirstHandlerAfterAppend | src/Protocol/MCPProtocol.php:303-310 | handlers registered later never take a method from an earlier one that accepts it |
| Replies.LaterHandlersDoNotOverride | src/Protocol/MCPProtocol.php:295-318 | once a handler accepts a method, more registrations do not change the answer |
| Replies.UnknownMethodIsNotFound | src/Protocol/MCPProtocol.php:303-313 | a method nobody accepts is answered -32601 "Method not found: m", and nothing runs |
| Replies.HandlerErrorBecomesServerError | src/Protocol/MCPProtocol.php:314-317 | any handler exception is answered -32000 with its message |
| Replies.UnknownResourceIsServerError | src/Server/RequestHandlers/Resources/ResourceReadHandler.php:66-72 | reading an unknown URI throws -32002 with the URI, but the client receives -32000 "Resource not found" |
| Replies.SecondInitializeIsServerError | src/Server/MCPServer.php:201-203 | a second initialize reaches the client as -32000 "Server already initialized", and the state is unchanged |
| Replies.SubscribeWithoutUriIsServerError | src/Server/RequestHandlers/Resources/ResourceSubscribeHandler.php:66-68 | subscribing without a uri answers -32000 "Missing required parameter: uri" and changes nothing |
| Replies.SubscribeToKnownResource | src/Server/RequestHandlers/Resources/ResourceSubscribeHandler.php:60-95 | subscribing to an existing URI answers an empty result and subscribes it |
| Replies.HelloOverTheWire | src/Tools/ToolServer.php:98-130 | say-hello over tools/call is one text content, and over tools/execute it is {result} |
| Replies.SuccessResponseSettles | src/Protocol/MCPProtocol.php:270-288 | with the corrected Recorded, a success response settles its pending request with the result |
| Replies.ErrorResponseSettles | src/Protocol/MCPProtocol.php:175-186 | with the corrected Recorded, an error response settles the request as a JsonRpcError with that code and message |
| Replies.PendingResponseRaisesAsWritten | src/Protocol/MCPProtocol.php:270-288 | for a pending id the code as written raises an Error where the corrected reading completes the request; otherwise the two agree |
| Replies.PendingResponseCounterexample | src/Protocol/MCPProtocol.php:282-287 | request "1" answered with an empty result: an Error as written, settled with [] as intended |
| Replies.ResponsesNeverSettleAsWritten | src/Protocol/MCPProtocol.php:158-171 | as written, no sequence of responses changes the pending table, so a waiting request is never completed |
| Replies.LateResponseIsIgnored | src/Protocol/MCPProtocol.php:72-76 | after a disconnect, a late response changes nothing |
| Replies.RequestIdsAreDistinct | src/Protocol/MCPProtocol.php:115 | different counter values give different ids |
| Replies.WrongVersionIsAnsweredWithNullId | src/Protocol/MCPProtocol.php:225-233 | a wrong-version message without an id is still answered, with a null id |

## Left out

- Stdio I/O: `StdioTransport`'s stream reading, the read loop, `processInput` and `run`. The
  transport is modelled as a connection flag and the list of messages sent.
- Protocol.Engine.Finish and Protocol.Engine.Timeout: the waiting loop of `sendRequest`
  (`microtime`, `usleep`, `processInput`) is split into these two steps. The clock and the
  float timeout are not modelled; the timeout is whole seconds.
- `json_encode` and `json_decode`.
  - json_encode is a function parameter of the tools/call handler.
  - json_decode is the `decode` field of `ReadBuffer`.
  - The framing works on bytes; the decoded body is taken as given.
  - Nothing constrains `decode` to what `json_decode($content, true)` can return. It may
    yield `EmptyObject`, which Framing.Interpret turns into a TypeError that PHP cannot
    reach. No lemma relies on this case.
- STDERR debug writes and logger calls are left out; the notification error log is returned
  as a value. They have no effect on state or replies.
- `EloquentResourceProvider` needs a database. The handler variants hold the in-memory
  provider; the pure handler functions take any `ResourceSource`.
- Other code outside this model:
  - `ClockTool` reads the clock.
  - `InitializedHandler` and `MCPServerFactory`.
  - `MCPService`, `ServesMcpServer` and the Laravel service providers and facade, which are
    framework wiring.
- `MCPServer::create` only builds the server-info array before calling the constructor.
  `getCapabilities` and `getServerInfo` are the `Session` constants.
- Handlers.NotificationHandler.HandleNotification: the notification objects do not hold the
  protocol. `notify` is `Server.NotifyUpdated` and `Server.NotifyListChanged`, which take the
  engine.
- The tool handlers are PHP anonymous classes; here they are two variants of
  `Handlers.RequestHandler`.
- Numeric-string array keys such as "1" are not turned into integer keys as PHP does.
- The request counter does not overflow: it is unbounded here.
- The container that `ToolRegistry` resolves class names with is the `make` function
  parameter.
- The transport's `onMessage` callback registration: incoming messages are handed to
  `HandleMessage` directly.
- Floating point: `Values.Value` has no float case. JSON numbers with a fraction cannot be
  represented, nor a float used as an error code, a resource size or an id.
- Values.IntParam: PHP's coercion of a numeric string such as "42" into an `int` parameter
  is not modelled; such a string reads as a TypeError. This affects the `int $code` of the
  error built in Protocol.Settled and the `?int $size` of ResourceTypes.ResourceItem.FromArray.
- PHP warnings follow plain PHP: the warning is emitted and execution goes on. This covers
  "Array to string conversion" in the say-hello greeting (Tools.HelloGreetsArrayAsArray) and
  "Undefined array key" when the server info has no name or version
  (src/Server/MCPServer.php:220, Session.InitializeStep). Laravel's error handler, which the
  package runs under, turns such warnings into a thrown `ErrorException`, which the engine
  would answer with -32000. That is not modelled.
- Protocol.Engine.HandleResponse and Protocol.Engine.HandleMessage use the corrected
  Protocol.Recorded. As written, a response for a pending request is an uncaught Error, as
  Protocol.RecordedAsWritten states; see Findings. Protocol.Engine.Finish is therefore
  reachable only in the corrected model.
- Handlers.RequestHandler.Run: its contract states only the frame and method-check
  properties common to all handlers. The per-handler results are the contracts of the
  functions it dispatches to.

## Findings

| source | as written | input that shows it | evidently intended | confidence | as-written member | corrected member |
|---|---|---|---|---|---|---|
| src/Protocol/MCPProtocol.php:282-287 | `$promise->reject($response['error'])` and `$promise->resolve(...)` call methods, but the anonymous promise class (lines 129-150) only has properties holding closures, so PHP raises "Call to undefined method class@anonymous::resolve()", an Error no catch intercepts | a request "1" waiting, then the response {jsonrpc: "2.0", id: "1", result: []}: the Error is raised inside the wait loop's `processInput` (line 162) and escapes `sendRequest` and any read loop; the pending entry is never removed | call the stored closures, `($promise->resolve)(...)`, completing the request | not executed | Protocol.RecordedAsWritten, Replies.PendingResponseRaisesAsWritten, Replies.PendingResponseCounterexample, Replies.ResponsesNeverSettleAsWritten | Protocol.Recorded, Replies.SuccessResponseSettles, Replies.ErrorResponseSettles |
| src/Types/InitializeResult.php:50-57 | `fromArray` reads `name` and `version` from the top level of the array and never reads `protocolVersion`, while `toArray` (lines 62-69) nests them under `serverInfo` | the result for server "srv" version "2.0": `fromArray(toArray())` gives "unknown" "1.0" | read `serverInfo.name`, `serverInfo.version` and `protocolVersion`, so that `fromArray` inverts `toArray` | not executed | Types.InitializeResult.FromArray, Types.ResultFromArrayLosesServerInfo, Types.ResultFromArrayCounterexample | Types.InitializeResult.FromArrayNested, Types.ResultFromArrayNestedRoundTrip |
