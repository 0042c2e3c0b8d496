/**
 * The request handlers the server registers (initialize, the five resource
 * methods, the two tool methods) and the two resource notification handlers.
 *
 * Each request handler's `handleRequest` is first stated as a function of
 * what it reads: the method name, the params, the provider's answers, the
 * server state. `Run` picks the function for a registered handler object and
 * `Invoke` is the handler call itself, which changes the server state where
 * the handler does.
 */
module Handlers {
  import opened Wrappers
  import opened Values
  import opened Errors
  import opened Types
  import opened ResourceTypes
  import opened Provider
  import opened Tools
  import opened Session
  import Dict

  const INITIALIZE: string := "initialize"
  const RESOURCES_LIST: string := "resources/list"
  const RESOURCES_READ: string := "resources/read"
  const RESOURCES_TEMPLATES_LIST: string := "resources/templates/list"
  const RESOURCES_SUBSCRIBE: string := "resources/subscribe"
  const RESOURCES_UNSUBSCRIBE: string := "resources/unsubscribe"
  const TOOLS_LIST: string := "tools/list"
  const TOOLS_CALL: string := "tools/call"
  const TOOLS_EXECUTE: string := "tools/execute"

  /** What a handler throws when asked for a method it does not serve. */
  const NOT_SUPPORTED: Exception := RpcError("Method not supported by this handler", METHOD_NOT_FOUND)
  const INVALID_INITIALIZE_PARAMS: Exception := RpcError("Invalid params for initialize", INVALID_PARAMS)
  const MISSING_URI: Exception := RpcError("Missing required parameter: uri", INVALID_PARAMS)

  const LIST_FAILED: string := "Failed to list resources: "
  const READ_FAILED: string := "Failed to read resource: "
  const TEMPLATES_FAILED: string := "Failed to list resource templates: "
  const SUBSCRIBE_FAILED: string := "Failed to subscribe to resource: "
  const UNSUBSCRIBE_FAILED: string := "Failed to unsubscribe from resource: "

  const NAME_MISSING: Exception := Exception(RuntimeException, "Tool name not specified")

  /** `$params['k'] ?? null` on a `?array` parameter. */
  function Param(params: Option<PhpArray>, k: string): (r: Value)
    ensures params.None? ==> r == Null
    ensures params.Some? ==> r == Lookup(params.value, k)
  {
    if params.None? then Null else Lookup(params.value, k)
  }

  /** The same exception as a JSON-RPC internal error whose message starts with the prefix. */
  function Wrapped(prefix: string, e: Exception): (r: Exception)
    ensures GetCode(r) == INTERNAL_ERROR && r.message == prefix + e.message && r.cls.JsonRpcError?
  {
    RpcError(prefix + e.message, INTERNAL_ERROR)
  }

  /** `catch (JsonRpcError $e) { throw $e; } catch (\Exception $e) { throw new JsonRpcError(prefix...) }` */
  function Rethrown(prefix: string, e: Exception): (r: Exception)
    ensures e.cls.JsonRpcError? ==> r == e
    ensures !e.cls.JsonRpcError? ==> r == Wrapped(prefix, e)
  {
    if e.cls.JsonRpcError? then e else Wrapped(prefix, e)
  }

  /** The error for a URI the provider does not have: code -32002 and the URI as data. */
  function NotFound(uri: string): (e: Exception)
    ensures GetCode(e) == RESOURCE_NOT_FOUND && e.message == "Resource not found"
    ensures GetErrorData(e) == Arr(UriArray(uri))
  {
    RpcError("Resource not found", RESOURCE_NOT_FOUND, Arr(UriArray(uri)))
  }

  // ---------------------------------------------------------------------
  // InitializeHandler
  // ---------------------------------------------------------------------

  /**
   * `InitializeHandler::handleRequest`: checks the method and that params is
   * an array, parses it and initializes the server with it.
   */
  function InitializeRequest(methodName: string, params: Option<PhpArray>, st: InitState, serverInfo: PhpArray, capabilities: PhpArray)
    : (r: (Outcome<PhpArray>, InitState))
    ensures methodName != INITIALIZE ==> r == (Throw(NOT_SUPPORTED), st)
    ensures methodName == INITIALIZE && params.None? ==> r == (Throw(INVALID_INITIALIZE_PARAMS), st)
    ensures r.1.initialized <==> st.initialized || (methodName == INITIALIZE && params.Some? && InitializeParams.FromArray(params.value).Ok?)
    ensures r.1 != st ==> !st.initialized && params.Some? && InitializeParams.FromArray(params.value).Ok?
                          && r.1.clientCapabilities == Some(InitializeParams.FromArray(params.value).value.capabilities)
    ensures st.initialized && methodName == INITIALIZE && params.Some? && InitializeParams.FromArray(params.value).Ok? ==>
              r == (Throw(RpcError("Server already initialized", INVALID_REQUEST)), st)
    ensures r.0.Ok? <==> methodName == INITIALIZE && params.Some? && InitializeParams.FromArray(params.value).Ok?
                         && !st.initialized
                         && StringParam(Lookup(serverInfo, "name")).Some? && StringParam(Lookup(serverInfo, "version")).Some?
    ensures r.0.Ok? ==>
              Dict.Keys(r.0.value) == [StrKey("protocolVersion"), StrKey("serverInfo"), StrKey("capabilities")]
              && Lookup(r.0.value, "protocolVersion") == Str(DEFAULT_PROTOCOL_VERSION)
              && Lookup(r.0.value, "serverInfo") == Arr([(StrKey("name"), Str(StringParam(Lookup(serverInfo, "name")).value)),
                                                         (StrKey("version"), Str(StringParam(Lookup(serverInfo, "version")).value))])
              && Lookup(r.0.value, "capabilities") == Arr(capabilities)
  {
    if methodName != INITIALIZE then (Throw(NOT_SUPPORTED), st)
    else if params.None? then (Throw(INVALID_INITIALIZE_PARAMS), st)
    else
      var parsed := InitializeParams.FromArray(params.value);
      if parsed.Fatal? then (Fatal(parsed.error), st)
      else
        var (result, st') := InitializeStep(st, parsed.value, serverInfo, capabilities);
        match result
        case Ok(ir) => (Ok(ir.ToArray()), st')
        case Throw(e) => (Throw(e), st')
        case Fatal(m) => (Fatal(m), st')
  }

  // ---------------------------------------------------------------------
  // Resource handlers
  // ---------------------------------------------------------------------

  /**
   * `ResourceListHandler::handleRequest`: the cursor is `params['cursor'] ?? null`;
   * whatever the provider throws comes back as an internal error.
   */
  function ListRequest(methodName: string, params: Option<PhpArray>, src: ResourceSource): (r: Outcome<PhpArray>)
    ensures methodName != RESOURCES_LIST ==> r == Throw(NOT_SUPPORTED)
    ensures methodName == RESOURCES_LIST ==>
              (r.Ok? <==> NullableStringParam(Param(params, "cursor")).Some?
                          && src.listResources(NullableStringParam(Param(params, "cursor")).value).Ok?)
    ensures r.Ok? ==>
              var page := src.listResources(NullableStringParam(Param(params, "cursor")).value).value;
              Lookup(r.value, "resources") == Arr(ListOf(ItemArrays(page.resources)))
              && Lookup(r.value, "nextCursor") == OptionalString(page.nextCursor)
    ensures methodName == RESOURCES_LIST && NullableStringParam(Param(params, "cursor")).Some?
            && src.listResources(NullableStringParam(Param(params, "cursor")).value).Throw? ==>
              r == Throw(Wrapped(LIST_FAILED, src.listResources(NullableStringParam(Param(params, "cursor")).value).exc))
    ensures r.Throw? ==> r.exc.cls.JsonRpcError?
  {
    if methodName != RESOURCES_LIST then Throw(NOT_SUPPORTED)
    else
      var cursor := NullableStringParam(Param(params, "cursor"));
      if cursor.None? then Fatal(ARGUMENT_TYPE_ERROR)
      else
        match src.listResources(cursor.value)
        case Ok(page) => Ok(ResourceListResult(page.resources, page.nextCursor).ToArray())
        case Throw(e) => Throw(Wrapped(LIST_FAILED, e))
        case Fatal(m) => Fatal(m)
  }

  /** The provider's check that the URI exists, inside the handlers' try block. */
  function Existing(uri: string, src: ResourceSource, prefix: string): (r: Outcome<()>)
    ensures r.Ok? <==> src.resourceExists(uri) == Ok(true)
    ensures src.resourceExists(uri) == Ok(false) ==> r == Throw(NotFound(uri))
    ensures src.resourceExists(uri).Throw? ==> r == Throw(Rethrown(prefix, src.resourceExists(uri).exc))
    ensures r.Fatal? <==> src.resourceExists(uri).Fatal?
  {
    match src.resourceExists(uri)
    case Ok(found) => if found then Ok(()) else Throw(NotFound(uri))
    case Throw(e) => Throw(Rethrown(prefix, e))
    case Fatal(m) => Fatal(m)
  }

  /** `! is_array($params) || ! isset($params['uri'])`. */
  predicate HasUri(params: Option<PhpArray>) {
    params.Some? && IsSet(params.value, "uri")
  }

  /** The URI a resource request names, once it passed the guard and typed as a string. */
  function RequestedUri(params: Option<PhpArray>): Option<string> {
    if HasUri(params) then StringParam(Lookup(params.value, "uri")) else None
  }

  /**
   * `ResourceReadHandler::handleRequest`: the URI must be given and exist;
   * the contents are then read. A JSON-RPC error passes through unchanged,
   * any other exception becomes an internal error.
   */
  function ReadRequest(methodName: string, params: Option<PhpArray>, src: ResourceSource): (r: Outcome<PhpArray>)
    ensures methodName != RESOURCES_READ ==> r == Throw(NOT_SUPPORTED)
    ensures methodName == RESOURCES_READ && !HasUri(params) ==> r == Throw(MISSING_URI)
    ensures methodName == RESOURCES_READ && RequestedUri(params).Some? && src.resourceExists(RequestedUri(params).value) == Ok(false) ==>
              r == Throw(NotFound(RequestedUri(params).value))
    ensures r.Ok? <==> methodName == RESOURCES_READ && RequestedUri(params).Some?
                       && src.resourceExists(RequestedUri(params).value) == Ok(true)
                       && src.readResource(RequestedUri(params).value).Ok?
    ensures r.Ok? ==> r.value == ResourceReadResult(src.readResource(RequestedUri(params).value).value).ToArray()
    ensures methodName == RESOURCES_READ && RequestedUri(params).Some? && src.resourceExists(RequestedUri(params).value) == Ok(true)
            && src.readResource(RequestedUri(params).value).Throw? ==>
              r == Throw(Rethrown(READ_FAILED, src.readResource(RequestedUri(params).value).exc))
    ensures r.Throw? ==> r.exc.cls.JsonRpcError?
  {
    if methodName != RESOURCES_READ then Throw(NOT_SUPPORTED)
    else if !HasUri(params) then Throw(MISSING_URI)
    else
      var parsed := ResourceReadParams.FromArray(params.value);
      if parsed.Fatal? then Fatal(parsed.error)
      else
        var uri := parsed.value.uri;
        var _ :- Existing(uri, src, READ_FAILED);
        match src.readResource(uri)
        case Ok(contents) => Ok(ResourceReadResult(contents).ToArray())
        case Throw(e) => Throw(Rethrown(READ_FAILED, e))
        case Fatal(m) => Fatal(m)
  }

  /** `ResourceTemplatesListHandler::handleRequest`: the params are not read. */
  function TemplatesRequest(methodName: string, src: ResourceSource): (r: Outcome<PhpArray>)
    ensures methodName != RESOURCES_TEMPLATES_LIST ==> r == Throw(NOT_SUPPORTED)
    ensures r.Ok? <==> methodName == RESOURCES_TEMPLATES_LIST && src.listResourceTemplates.Ok?
    ensures r.Ok? ==> r.value == ResourceTemplatesListResult(src.listResourceTemplates.value).ToArray()
    ensures methodName == RESOURCES_TEMPLATES_LIST && src.listResourceTemplates.Throw? ==>
              r == Throw(Wrapped(TEMPLATES_FAILED, src.listResourceTemplates.exc))
    ensures r.Throw? ==> r.exc.cls.JsonRpcError?
  {
    if methodName != RESOURCES_TEMPLATES_LIST then Throw(NOT_SUPPORTED)
    else
      match src.listResourceTemplates
      case Ok(templates) => Ok(ResourceTemplatesListResult(templates).ToArray())
      case Throw(e) => Throw(Wrapped(TEMPLATES_FAILED, e))
      case Fatal(m) => Fatal(m)
  }

  /**
   * `ResourceSubscribeHandler::handleRequest`: an existing URI is added to
   * the server's subscriptions and the answer is an empty array.
   */
  function SubscribeRequest(methodName: string, params: Option<PhpArray>, src: ResourceSource, subs: seq<(string, bool)>)
    : (r: (Outcome<PhpArray>, seq<(string, bool)>))
    ensures methodName != RESOURCES_SUBSCRIBE ==> r == (Throw(NOT_SUPPORTED), subs)
    ensures methodName == RESOURCES_SUBSCRIBE && !HasUri(params) ==> r == (Throw(MISSING_URI), subs)
    ensures methodName == RESOURCES_SUBSCRIBE && RequestedUri(params).Some? && src.resourceExists(RequestedUri(params).value) == Ok(false) ==>
              r == (Throw(NotFound(RequestedUri(params).value)), subs)
    ensures r.0.Ok? <==> methodName == RESOURCES_SUBSCRIBE && RequestedUri(params).Some?
                         && src.resourceExists(RequestedUri(params).value) == Ok(true)
    ensures r.0.Ok? ==> r.0.value == [] && r.1 == Dict.Put(subs, RequestedUri(params).value, true)
    ensures !r.0.Ok? ==> r.1 == subs
    ensures r.0.Throw? ==> r.0.exc.cls.JsonRpcError?
  {
    if methodName != RESOURCES_SUBSCRIBE then (Throw(NOT_SUPPORTED), subs)
    else if !HasUri(params) then (Throw(MISSING_URI), subs)
    else
      var parsed := ResourceSubscribeParams.FromArray(params.value);
      if parsed.Fatal? then (Fatal(parsed.error), subs)
      else
        var uri := parsed.value.uri;
        match Existing(uri, src, SUBSCRIBE_FAILED)
        case Ok(_) => (Ok([]), Dict.Put(subs, uri, true))
        case Throw(e) => (Throw(e), subs)
        case Fatal(m) => (Fatal(m), subs)
  }

  /** `ResourceUnsubscribeHandler::handleRequest`: the same checks, then the URI is removed. */
  function UnsubscribeRequest(methodName: string, params: Option<PhpArray>, src: ResourceSource, subs: seq<(string, bool)>)
    : (r: (Outcome<PhpArray>, seq<(string, bool)>))
    ensures methodName != RESOURCES_UNSUBSCRIBE ==> r == (Throw(NOT_SUPPORTED), subs)
    ensures methodName == RESOURCES_UNSUBSCRIBE && !HasUri(params) ==> r == (Throw(MISSING_URI), subs)
    ensures methodName == RESOURCES_UNSUBSCRIBE && RequestedUri(params).Some? && src.resourceExists(RequestedUri(params).value) == Ok(false) ==>
              r == (Throw(NotFound(RequestedUri(params).value)), subs)
    ensures r.0.Ok? <==> methodName == RESOURCES_UNSUBSCRIBE && RequestedUri(params).Some?
                         && src.resourceExists(RequestedUri(params).value) == Ok(true)
    ensures r.0.Ok? ==> r.0.value == [] && r.1 == Dict.Remove(subs, RequestedUri(params).value)
    ensures !r.0.Ok? ==> r.1 == subs
    ensures r.0.Throw? ==> r.0.exc.cls.JsonRpcError?
  {
    if methodName != RESOURCES_UNSUBSCRIBE then (Throw(NOT_SUPPORTED), subs)
    else if !HasUri(params) then (Throw(MISSING_URI), subs)
    else
      var parsed := ResourceUnsubscribeParams.FromArray(params.value);
      if parsed.Fatal? then (Fatal(parsed.error), subs)
      else
        var uri := parsed.value.uri;
        match Existing(uri, src, UNSUBSCRIBE_FAILED)
        case Ok(_) => (Ok([]), Dict.Remove(subs, uri))
        case Throw(e) => (Throw(e), subs)
        case Fatal(m) => (Fatal(m), subs)
  }

  // ---------------------------------------------------------------------
  // Tool handlers
  // ---------------------------------------------------------------------

  /** The tools/list handler: `{tools: getToolSchemas()}`, whatever the method and params. */
  function ToolsListRequest(tools: seq<(string, Tool)>): (r: Outcome<PhpArray>)
    ensures r.Ok? && Dict.Keys(r.value) == [StrKey("tools")]
    ensures Lookup(r.value, "tools") == Arr(ListOf(Schemas(Dict.Values(tools))))
  {
    Ok([(StrKey("tools"), Arr(ListOf(Schemas(Dict.Values(tools)))))])
  }

  /** `is_string($result) ? $result : json_encode($result)`; json_encode yields false on failure. */
  function ResultText(result: Value, jsonEncode: Value -> Option<string>): (r: Value)
    ensures result.Str? ==> r == result
    ensures !result.Str? ==> r == (if jsonEncode(result).Some? then Str(jsonEncode(result).value) else Bool(false))
  {
    if result.Str? then result
    else match jsonEncode(result)
      case Some(text) => Str(text)
      case None => Bool(false)
  }

  /** The tools/call answer: one text content holding the result. */
  function CallContent(result: Value, jsonEncode: Value -> Option<string>): (r: PhpArray)
    ensures Dict.Keys(r) == [StrKey("content")]
    ensures Lookup(r, "content").Arr? && |Lookup(r, "content").entries| == 1
    ensures var item := Lookup(r, "content").entries[0];
            item.0 == IntKey(0) && item.1.Arr?
            && Lookup(item.1.entries, "type") == Str("text")
            && Lookup(item.1.entries, "text") == ResultText(result, jsonEncode)
  {
    var item := [(StrKey("type"), Str("text")), (StrKey("text"), ResultText(result, jsonEncode))];
    Dict.Literal2(item[0], item[1]);
    [(StrKey("content"), Arr(ListOf([Arr(item)])))]
  }

  /**
   * The tools/call and tools/execute handler. The tool name must be set and
   * registered; the arguments default to []; tools/call wraps the result in
   * a text content and any other method answers `{result}`. The tool's own
   * exceptions pass through.
   */
  function ToolsCallRequest(methodName: string, params: Option<PhpArray>, tools: seq<(string, Tool)>, jsonEncode: Value -> Option<string>)
    : (r: Outcome<PhpArray>)
    ensures Param(params, "name") == Null ==> r == Throw(NAME_MISSING)
    ensures Param(params, "name") != Null && StringParam(Param(params, "name")).None? ==> r.Fatal?
    ensures StringParam(Param(params, "name")).Some? && !Dict.HasKey(tools, StringParam(Param(params, "name")).value) ==>
              r == Throw(Exception(RuntimeException, "Unknown tool: " + StringParam(Param(params, "name")).value))
    ensures StringParam(Param(params, "name")).Some? && Dict.HasKey(tools, StringParam(Param(params, "name")).value)
            && ArrayParam(Coalesce(Param(params, "arguments"), Arr([]))).Some? ==>
              var tool := Dict.Get(tools, StringParam(Param(params, "name")).value).value;
              var result := tool.Execute(ArrayParam(Coalesce(Param(params, "arguments"), Arr([]))).value);
              (result.Ok? ==> r == Ok(if methodName == TOOLS_CALL then CallContent(result.value, jsonEncode)
                                     else [(StrKey("result"), result.value)]))
              && (result.Throw? ==> r == Throw(result.exc))
              && (result.Fatal? ==> r == Fatal(result.error))
  {
    var name := Param(params, "name");
    if name == Null then Throw(NAME_MISSING)
    else match StringParam(name)
      case None => Fatal(ARGUMENT_TYPE_ERROR)
      case Some(toolName) =>
        match Dict.Get(tools, toolName)
        case None => Throw(Exception(RuntimeException, "Unknown tool: " + toolName))
        case Some(tool) =>
          match ArrayParam(Coalesce(Param(params, "arguments"), Arr([])))
          case None => Fatal(ARGUMENT_TYPE_ERROR)
          case Some(arguments) =>
            var result :- tool.Execute(arguments);
            if methodName == TOOLS_CALL then Ok(CallContent(result, jsonEncode))
            else Ok([(StrKey("result"), result)])
  }

  // ---------------------------------------------------------------------
  // Registered handler objects
  // ---------------------------------------------------------------------

  /** What a handler call did to the server state: nothing, or its new state. */
  datatype Effect =
    | NoEffect
    | SessionEffect(st: InitState, subscriptions: seq<(string, bool)>)

  /** A request handler object as registered, with the objects it holds. */
  datatype RequestHandler =
    | InitializeHandler(server: Session)
    | ResourceListHandler(provider: InMemoryResourceProvider)
    | ResourceReadHandler(provider: InMemoryResourceProvider)
    | ResourceTemplatesListHandler(provider: InMemoryResourceProvider)
    | ResourceSubscribeHandler(provider: InMemoryResourceProvider, server: Session)
    | ResourceUnsubscribeHandler(provider: InMemoryResourceProvider, server: Session)
    | ToolsListHandler(registry: ToolRegistry)
    | ToolsCallHandler(registry: ToolRegistry, jsonEncode: Value -> Option<string>)
  {
    /** `canHandle($method)`: an exact match on the handler's method names. */
    function CanHandle(methodName: string): (r: bool)
      ensures this.InitializeHandler? ==> (r <==> methodName == INITIALIZE)
      ensures this.ResourceListHandler? ==> (r <==> methodName == RESOURCES_LIST)
      ensures this.ResourceReadHandler? ==> (r <==> methodName == RESOURCES_READ)
      ensures this.ResourceTemplatesListHandler? ==> (r <==> methodName == RESOURCES_TEMPLATES_LIST)
      ensures this.ResourceSubscribeHandler? ==> (r <==> methodName == RESOURCES_SUBSCRIBE)
      ensures this.ResourceUnsubscribeHandler? ==> (r <==> methodName == RESOURCES_UNSUBSCRIBE)
      ensures this.ToolsListHandler? ==> (r <==> methodName == TOOLS_LIST)
      ensures this.ToolsCallHandler? ==> (r <==> methodName == TOOLS_CALL || methodName == TOOLS_EXECUTE)
    {
      match this
      case InitializeHandler(_) => methodName == INITIALIZE
      case ResourceListHandler(_) => methodName == RESOURCES_LIST
      case ResourceReadHandler(_) => methodName == RESOURCES_READ
      case ResourceTemplatesListHandler(_) => methodName == RESOURCES_TEMPLATES_LIST
      case ResourceSubscribeHandler(_, _) => methodName == RESOURCES_SUBSCRIBE
      case ResourceUnsubscribeHandler(_, _) => methodName == RESOURCES_UNSUBSCRIBE
      case ToolsListHandler(_) => methodName == TOOLS_LIST
      case ToolsCallHandler(_, _) => methodName == TOOLS_CALL || methodName == TOOLS_EXECUTE
    }

    /** The handlers that hold the server. */
    predicate HasServer() {
      InitializeHandler? || ResourceSubscribeHandler? || ResourceUnsubscribeHandler?
    }

    /** The tool handlers are the only ones that do not check the method themselves. */
    predicate ChecksMethod() {
      !ToolsListHandler? && !ToolsCallHandler?
    }

    function Reads(): set<object> {
      match this
      case InitializeHandler(s) => {s, s.capabilities}
      case ResourceListHandler(p) => {p}
      case ResourceReadHandler(p) => {p}
      case ResourceTemplatesListHandler(p) => {p}
      case ResourceSubscribeHandler(p, s) => {p, s}
      case ResourceUnsubscribeHandler(p, s) => {p, s}
      case ToolsListHandler(t) => {t}
      case ToolsCallHandler(t, _) => {t}
    }

    /** Only the server state is ever changed by a handler. */
    function Writes(): set<Session> {
      if HasServer() then {server} else {}
    }

    /** The new server state an effect describes is the one the server holds. */
    predicate Applied(e: Effect)
      reads Writes()
    {
      e.SessionEffect? && HasServer() ==> server.State() == e.st && server.resourceSubscriptions == e.subscriptions
    }

    /**
     * `handleRequest($method, $params)` in the current state: its outcome and
     * what it does to the server.
     */
    function Run(methodName: string, params: Option<PhpArray>): (r: (Outcome<PhpArray>, Effect))
      reads Reads()
      ensures ChecksMethod() && !CanHandle(methodName) ==> r.0 == Throw(NOT_SUPPORTED)
      ensures r.1.SessionEffect? <==> HasServer()
      ensures r.1.SessionEffect? && !r.0.Ok? && !InitializeHandler? ==>
                r.1 == SessionEffect(server.State(), server.resourceSubscriptions)
    {
      match this
      case InitializeHandler(s) =>
        var (o, st) := InitializeRequest(methodName, params, s.State(), s.serverInfo, s.capabilities.ToArray());
        (o, SessionEffect(st, s.resourceSubscriptions))
      case ResourceListHandler(p) => (ListRequest(methodName, params, p.Source()), NoEffect)
      case ResourceReadHandler(p) => (ReadRequest(methodName, params, p.Source()), NoEffect)
      case ResourceTemplatesListHandler(p) => (TemplatesRequest(methodName, p.Source()), NoEffect)
      case ResourceSubscribeHandler(p, s) =>
        var (o, subs) := SubscribeRequest(methodName, params, p.Source(), s.resourceSubscriptions);
        (o, SessionEffect(s.State(), subs))
      case ResourceUnsubscribeHandler(p, s) =>
        var (o, subs) := UnsubscribeRequest(methodName, params, p.Source(), s.resourceSubscriptions);
        (o, SessionEffect(s.State(), subs))
      case ToolsListHandler(t) => (ToolsListRequest(t.tools), NoEffect)
      case ToolsCallHandler(t, encode) => (ToolsCallRequest(methodName, params, t.tools, encode), NoEffect)
    }
  }

  /**
   * The handler call: the outcome `Run` states, with the server changed as
   * `Run`'s effect says and nothing else changed.
   */
  method Invoke(h: RequestHandler, methodName: string, params: Option<PhpArray>) returns (r: Outcome<PhpArray>)
    modifies h.Writes()
    ensures r == old(h.Run(methodName, params)).0
    ensures h.Applied(old(h.Run(methodName, params)).1)
    ensures h.HasServer() && old(h.server.Valid()) ==> h.server.Valid()
  {
    match h {
      case InitializeHandler(s) =>
        if methodName != INITIALIZE {
          return Throw(NOT_SUPPORTED);
        }
        if params.None? {
          return Throw(INVALID_INITIALIZE_PARAMS);
        }
        var parsed := InitializeParams.FromArray(params.value);
        if parsed.Fatal? {
          return Fatal(parsed.error);
        }
        var result := s.Initialize(parsed.value);
        match result {
          case Ok(ir) => r := Ok(ir.ToArray());
          case Throw(e) => r := Throw(e);
          case Fatal(m) => r := Fatal(m);
        }
      case ResourceSubscribeHandler(p, s) =>
        var out := SubscribeRequest(methodName, params, p.Source(), s.resourceSubscriptions);
        r := out.0;
        if r.Ok? {
          s.AddResourceSubscription(RequestedUri(params).value);
        }
      case ResourceUnsubscribeHandler(p, s) =>
        var out := UnsubscribeRequest(methodName, params, p.Source(), s.resourceSubscriptions);
        r := out.0;
        if r.Ok? {
          s.RemoveResourceSubscription(RequestedUri(params).value);
        }
      case ToolsListHandler(t) =>
        var schemas := t.GetToolSchemas();
        r := Ok([(StrKey("tools"), Arr(schemas))]);
      case ResourceListHandler(p) =>
        if methodName != RESOURCES_LIST {
          return Throw(NOT_SUPPORTED);
        }
        var cursor := NullableStringParam(Param(params, "cursor"));
        if cursor.None? {
          return Fatal(ARGUMENT_TYPE_ERROR);
        }
        var page := p.ListResources(cursor.value);
        r := Ok(ResourceListResult(page.resources, page.nextCursor).ToArray());
      case _ =>
        r := h.Run(methodName, params).0;
    }
  }

  // ---------------------------------------------------------------------
  // Notification handlers
  // ---------------------------------------------------------------------

  const OUTGOING_ONLY: string := "This handler only sends outgoing notifications, not handles incoming ones"
  const LIST_CHANGED: string := "notifications/resources/list_changed"
  const UPDATED: string := "notifications/resources/updated"

  /** The two resource notifications; both only send, and refuse to handle an incoming one. */
  datatype NotificationHandler =
    | ResourceListChangedNotification
    | ResourceUpdatedNotification
  {
    /** `canHandle($method)`: the notification's own method name. */
    function CanHandle(methodName: string): (r: bool)
      ensures this.ResourceListChangedNotification? ==> (r <==> methodName == LIST_CHANGED)
      ensures this.ResourceUpdatedNotification? ==> (r <==> methodName == UPDATED)
    {
      match this
      case ResourceListChangedNotification => methodName == LIST_CHANGED
      case ResourceUpdatedNotification => methodName == UPDATED
    }

    /** `handleNotification($method, $params)`: throws for every method and params. */
    function HandleNotification(methodName: string, params: Option<PhpArray>): (r: Outcome<()>)
      ensures r.Throw? && r.exc.cls.PlainException? && r.exc.message == OUTGOING_ONLY
    {
      Throw(Exception(PlainException, OUTGOING_ONLY))
    }
  }

  /** The params `ResourceUpdatedNotification::notify` sends: `{uri}`. */
  function UpdatedParams(uri: string): (r: PhpArray)
    ensures Dict.Keys(r) == [StrKey("uri")] && Lookup(r, "uri") == Str(uri)
  {
    UriArray(uri)
  }
}
