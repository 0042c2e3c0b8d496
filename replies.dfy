/**
 * What reaches the wire: properties of the engine's answers once the
 * handlers are registered, from routing to the error codes a client sees,
 * and of the responses it accepts for its own requests.
 */
module Replies {
  import opened Wrappers
  import opened Values
  import opened Errors
  import opened Types
  import opened Provider
  import opened Tools
  import opened Handlers
  import opened Protocol
  import Session
  import Dict

  // ---------------------------------------------------------------------
  // Routing
  // ---------------------------------------------------------------------

  /** Handlers registered later never take a method from the first one that accepts it. */
  lemma {:induction false} FirstHandlerAfterAppend(hs: seq<RequestHandler>, extra: seq<RequestHandler>, name: string)
    requires FirstHandler(hs, name).Some?
    ensures FirstHandler(hs + extra, name) == FirstHandler(hs, name)
  {
    if !hs[0].CanHandle(name) {
      assert (hs + extra)[1..] == hs[1..] + extra;
      FirstHandlerAfterAppend(hs[1..], extra, name);
    }
  }

  /** Once some handler accepts a method, registering more handlers does not change any answer to it. */
  lemma LaterHandlersDoNotOverride(hs: seq<RequestHandler>, extra: seq<RequestHandler>, request: PhpArray)
    requires StringParam(Lookup(request, "method")).Some?
    requires FirstHandler(hs, StringParam(Lookup(request, "method")).value).Some?
    ensures Respond(hs + extra, request) == Respond(hs, request)
  {
    var name := StringParam(Lookup(request, "method")).value;
    FirstHandlerAfterAppend(hs, extra, name);
    var i := FirstHandler(hs, name).value;
    assert (hs + extra)[i] == hs[i];
  }

  /** A method no handler accepts is answered -32601 "Method not found: m", and nothing runs. */
  lemma UnknownMethodIsNotFound(hs: seq<RequestHandler>, request: PhpArray, m: string)
    requires Lookup(request, "method") == Str(m)
    requires forall j :: 0 <= j < |hs| ==> !hs[j].CanHandle(m)
    ensures Respond(hs, request) ==
            Dispatch(Ok(ErrorResponse(Lookup(request, "id"), METHOD_NOT_FOUND, "Method not found: " + m)), NoEffect, None)
  {
    assert hs != [] ==> FirstHandler(hs, m).None?;
  }

  // ---------------------------------------------------------------------
  // Handler errors on the wire
  // ---------------------------------------------------------------------

  /**
   * Whatever a handler throws is answered with code -32000 and the
   * exception's message: the code a JSON-RPC error carried is not sent.
   */
  lemma HandlerErrorBecomesServerError(hs: seq<RequestHandler>, request: PhpArray, i: nat, params: Option<PhpArray>)
    requires StringParam(Lookup(request, "method")).Some?
    requires FirstHandler(hs, StringParam(Lookup(request, "method")).value) == Some(i)
    requires ParamsOf(Lookup(request, "params")) == Ok(params)
    requires hs[i].Run(StringParam(Lookup(request, "method")).value, params).0.Throw?
    ensures Respond(hs, request).reply ==
            Ok(ErrorResponse(Lookup(request, "id"), SERVER_ERROR_END,
                             hs[i].Run(StringParam(Lookup(request, "method")).value, params).0.exc.message))
    ensures Respond(hs, request).handler == Some(i)
  {
  }

  /**
   * Reading a URI the in-memory provider does not have: the handler throws
   * -32002 with the URI as data, and the client receives -32000 "Resource
   * not found" without the data.
   */
  lemma UnknownResourceIsServerError(hs: seq<RequestHandler>, request: PhpArray, p: InMemoryResourceProvider, params: PhpArray, uri: string)
    requires Lookup(request, "method") == Str(RESOURCES_READ)
    requires FirstHandler(hs, RESOURCES_READ).Some? && hs[FirstHandler(hs, RESOURCES_READ).value] == ResourceReadHandler(p)
    requires Lookup(request, "params") == Arr(params) && Lookup(params, "uri") == Str(uri)
    requires !p.ResourceExists(uri)
    ensures ReadRequest(RESOURCES_READ, Some(params), p.Source()) == Throw(NotFound(uri))
    ensures GetCode(NotFound(uri)) == RESOURCE_NOT_FOUND
    ensures Respond(hs, request).reply == Ok(ErrorResponse(Lookup(request, "id"), SERVER_ERROR_END, "Resource not found"))
  {
    assert RequestedUri(Some(params)) == Some(uri);
    assert p.Source().resourceExists(uri) == Ok(false);
  }

  /**
   * A second `initialize` reaches the client as -32000 "Server already
   * initialized" (the server threw -32600), and the server state stays as it was.
   */
  lemma SecondInitializeIsServerError(hs: seq<RequestHandler>, request: PhpArray, s: Session.Session, params: PhpArray)
    requires Lookup(request, "method") == Str(INITIALIZE)
    requires FirstHandler(hs, INITIALIZE).Some? && hs[FirstHandler(hs, INITIALIZE).value] == InitializeHandler(s)
    requires Lookup(request, "params") == Arr(params) && InitializeParams.FromArray(params).Ok?
    requires s.initialized
    ensures Respond(hs, request).reply == Ok(ErrorResponse(Lookup(request, "id"), SERVER_ERROR_END, "Server already initialized"))
    ensures Respond(hs, request).effect == SessionEffect(s.State(), s.resourceSubscriptions)
  {
  }

  /** Subscribing without a uri: -32000 "Missing required parameter: uri", subscriptions unchanged. */
  lemma SubscribeWithoutUriIsServerError(hs: seq<RequestHandler>, request: PhpArray, p: InMemoryResourceProvider, s: Session.Session)
    requires Lookup(request, "method") == Str(RESOURCES_SUBSCRIBE)
    requires FirstHandler(hs, RESOURCES_SUBSCRIBE).Some?
    requires hs[FirstHandler(hs, RESOURCES_SUBSCRIBE).value] == ResourceSubscribeHandler(p, s)
    requires Lookup(request, "params") == Null || (Lookup(request, "params").Arr? && !IsSet(Lookup(request, "params").entries, "uri"))
    ensures Respond(hs, request).reply ==
            Ok(ErrorResponse(Lookup(request, "id"), SERVER_ERROR_END, "Missing required parameter: uri"))
    ensures Respond(hs, request).effect == SessionEffect(s.State(), s.resourceSubscriptions)
  {
    var params := ParamsOf(Lookup(request, "params")).value;
    assert !HasUri(params);
  }

  /** Subscribing to a URI the provider has: an empty result, and the URI is subscribed. */
  lemma SubscribeToKnownResource(hs: seq<RequestHandler>, request: PhpArray, p: InMemoryResourceProvider, s: Session.Session,
                                 params: PhpArray, uri: string)
    requires Lookup(request, "method") == Str(RESOURCES_SUBSCRIBE) && Lookup(request, "id") != Null
    requires FirstHandler(hs, RESOURCES_SUBSCRIBE).Some?
    requires hs[FirstHandler(hs, RESOURCES_SUBSCRIBE).value] == ResourceSubscribeHandler(p, s)
    requires Lookup(request, "params") == Arr(params) && Lookup(params, "uri") == Str(uri)
    requires p.ResourceExists(uri)
    ensures Respond(hs, request).reply == Ok(SuccessResponse(Lookup(request, "id"), []))
    ensures Respond(hs, request).effect == SessionEffect(s.State(), Dict.Put(s.resourceSubscriptions, uri, true))
  {
    assert RequestedUri(Some(params)) == Some(uri);
    assert p.Source().resourceExists(uri) == Ok(true);
  }

  // ---------------------------------------------------------------------
  // Tools
  // ---------------------------------------------------------------------

  /**
   * Calling say-hello with a name: `tools/call` answers a single text
   * content "Hello, <name>!", `tools/execute` answers `{result: "Hello, <name>!"}`.
   */
  lemma HelloOverTheWire(hs: seq<RequestHandler>, request: PhpArray, t: ToolRegistry, encode: Value -> Option<string>,
                         m: string, params: PhpArray, arguments: PhpArray, who: string)
    requires m == TOOLS_CALL || m == TOOLS_EXECUTE
    requires Lookup(request, "method") == Str(m) && Lookup(request, "id") != Null
    requires FirstHandler(hs, m).Some? && hs[FirstHandler(hs, m).value] == ToolsCallHandler(t, encode)
    requires Dict.Get(t.tools, "say-hello") == Some(HelloTool)
    requires Lookup(request, "params") == Arr(params)
    requires Lookup(params, "name") == Str("say-hello") && Lookup(params, "arguments") == Arr(arguments)
    requires Lookup(arguments, "name") == Str(who)
    ensures m == TOOLS_CALL ==>
              Respond(hs, request).reply == Ok(SuccessResponse(Lookup(request, "id"), CallContent(Str("Hello, " + who + "!"), encode)))
    ensures m == TOOLS_EXECUTE ==>
              Respond(hs, request).reply == Ok(SuccessResponse(Lookup(request, "id"), [(StrKey("result"), Str("Hello, " + who + "!"))]))
  {
    HelloGreetsName(arguments, who);
    assert Dict.HasKey(t.tools, "say-hello");
  }

  // ---------------------------------------------------------------------
  // Responses to the engine's own requests
  // ---------------------------------------------------------------------

  /** A success response for a pending request is taken as a response and settles it with its result. */
  lemma SuccessResponseSettles(pending: map<string, Promise>, id: string, result: PhpArray)
    requires id in pending && pending[id].error == Null
    ensures Classify(SuccessResponse(Str(id), result)) == Response
    ensures var next := Recorded(pending, SuccessResponse(Str(id), result));
            next.Ok? && id in next.value && next.value[id].completed && Settled(next.value[id]) == Ok(result)
  {
    var response := SuccessResponse(Str(id), result);
    assert AsString(Lookup(response, "id")) == Some(id);
  }

  /** An error response for a pending request settles it as a JSON-RPC error with that code and message. */
  lemma ErrorResponseSettles(pending: map<string, Promise>, id: string, code: int, message: string)
    requires id in pending
    ensures Classify(ErrorResponse(Str(id), code, message)) == Response
    ensures var next := Recorded(pending, ErrorResponse(Str(id), code, message));
            next.Ok? && id in next.value && next.value[id].completed
            && Settled(next.value[id]) == Throw(RpcError(message, code, Null))
  {
    var response := ErrorResponse(Str(id), code, message);
    assert AsString(Lookup(response, "id")) == Some(id);
    var error := ErrorObject(code, message, Null);
    assert Lookup(response, "error") == Arr(error);
  }

  /**
   * As written, a response for a pending request raises an Error instead of
   * settling it, where the intended reading completes it; for an id that is
   * not pending (or not a string) the two agree.
   */
  lemma PendingResponseRaisesAsWritten(pending: map<string, Promise>, response: PhpArray)
    ensures var id := AsString(Lookup(response, "id"));
            id.Some? && id.value in pending ==>
              RecordedAsWritten(pending, response).Fatal?
              && Recorded(pending, response).Ok? && Recorded(pending, response).value[id.value].completed
    ensures var id := AsString(Lookup(response, "id"));
            id.None? || id.value !in pending ==> RecordedAsWritten(pending, response) == Recorded(pending, response)
  {
  }

  /** The request "1" answered with an empty result: an Error as written, settled as intended. */
  lemma PendingResponseCounterexample()
    ensures RecordedAsWritten(map["1" := WAITING], SuccessResponse(Str("1"), [])) == Fatal(UndefinedMethod("resolve"))
    ensures Recorded(map["1" := WAITING], SuccessResponse(Str("1"), [])) == Ok(map["1" := Promise(true, Arr([]), Null)])
  {
    var response := SuccessResponse(Str("1"), []);
    assert AsString(Lookup(response, "id")) == Some("1");
    assert Lookup(response, "result") == Arr([]);
    assert !IsSet(response, "error");
    assert map["1" := WAITING]["1" := WAITING.(completed := true, result := Arr([]))] == map["1" := Promise(true, Arr([]), Null)];
  }

  /** Responses handled one after another as written, up to the first failure. */
  function AfterResponsesAsWritten(pending: map<string, Promise>, responses: seq<PhpArray>): (r: Outcome<map<string, Promise>>)
    decreases |responses|
  {
    if responses == [] then Ok(pending)
    else match RecordedAsWritten(pending, responses[0])
      case Ok(next) => AfterResponsesAsWritten(next, responses[1..])
      case Throw(e) => Throw(e)
      case Fatal(m) => Fatal(m)
  }

  /**
   * As written, no sequence of responses completes a waiting request: the
   * table is the same after any run that does not fail. The first response
   * to a pending id raises the Error inside the wait loop's `processInput`,
   * which escapes `sendRequest` and any read loop; the pending entry is
   * never removed.
   */
  lemma {:induction false} ResponsesNeverSettleAsWritten(pending: map<string, Promise>, responses: seq<PhpArray>)
    ensures AfterResponsesAsWritten(pending, responses).Ok? ==> AfterResponsesAsWritten(pending, responses).value == pending
    decreases |responses|
  {
    if responses != [] && RecordedAsWritten(pending, responses[0]).Ok? {
      ResponsesNeverSettleAsWritten(pending, responses[1..]);
    }
  }

  /** After a disconnect nothing is pending, so a late response changes nothing. */
  lemma LateResponseIsIgnored(response: PhpArray)
    requires AsString(Lookup(response, "id")).Some?
    ensures Recorded(map[], response) == Ok(map[])
  {
  }

  /** Requests sent at different counter values never share an id. */
  lemma RequestIdsAreDistinct(a: int, b: int)
    requires a != b
    ensures IntToString(a) != IntToString(b)
  {
    if IntToString(a) == IntToString(b) {
      IntToStringInjective(a, b);
    }
  }

  /** A message of another JSON-RPC version without an id is still answered, with a null id. */
  lemma WrongVersionIsAnsweredWithNullId(m: PhpArray)
    requires !Versioned(m) && !IsSet(m, "id")
    ensures Classify(m) == Invalid(Null, INVALID_VERSION)
  {
  }
}
