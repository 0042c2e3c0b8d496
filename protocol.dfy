/**
 * The JSON-RPC 2.0 engine: it sends requests and notifications through the
 * transport, keeps the requests still waiting for an answer, and routes each
 * incoming message (a response, a request, a notification, or something
 * invalid) to where it belongs.
 */
module Protocol {
  import opened Wrappers
  import opened Values
  import opened Errors
  import opened Transport
  import opened Handlers
  import Session
  import Dict

  const JSONRPC: string := "2.0"
  const INVALID_VERSION: string := "Invalid Request: Not a valid JSON-RPC 2.0 message"
  const UNRECOGNIZED: string := "Invalid Request: Message format not recognized"
  const NO_ID: string := "Cannot send a response without an ID"
  /** The error the transport throws when it is not connected. */
  const NOT_CONNECTED_ERROR: Exception := Exception(RuntimeException, NOT_CONNECTED)

  // ---------------------------------------------------------------------
  // Messages the engine writes
  // ---------------------------------------------------------------------

  /** `{jsonrpc, id, method[, params]}`: params only when given. */
  function RequestMessage(id: string, methodName: string, params: Option<PhpArray>): (r: PhpArray)
    ensures Lookup(r, "jsonrpc") == Str(JSONRPC) && Lookup(r, "id") == Str(id) && Lookup(r, "method") == Str(methodName)
    ensures Lookup(r, "params") == if params.Some? then Arr(params.value) else Null
    ensures Dict.Keys(r) == [StrKey("jsonrpc"), StrKey("id"), StrKey("method")]
                            + (if params.Some? then [StrKey("params")] else [])
  {
    var base := [(StrKey("jsonrpc"), Str(JSONRPC)), (StrKey("id"), Str(id)), (StrKey("method"), Str(methodName))];
    Dict.Literal3(base[0], base[1], base[2]);
    if params.Some? then With(base, "params", Arr(params.value)) else base
  }

  /** `{jsonrpc, method[, params]}`: a notification carries no id. */
  function NotificationMessage(methodName: string, params: Option<PhpArray>): (r: PhpArray)
    ensures Lookup(r, "jsonrpc") == Str(JSONRPC) && Lookup(r, "method") == Str(methodName)
    ensures !IsSet(r, "id")
    ensures Lookup(r, "params") == if params.Some? then Arr(params.value) else Null
    ensures Dict.Keys(r) == [StrKey("jsonrpc"), StrKey("method")] + (if params.Some? then [StrKey("params")] else [])
  {
    var base := [(StrKey("jsonrpc"), Str(JSONRPC)), (StrKey("method"), Str(methodName))];
    Dict.Literal2(base[0], base[1]);
    if params.Some? then With(base, "params", Arr(params.value)) else base
  }

  /** `sendSuccessResponse`: `{jsonrpc, id, result}`. */
  function SuccessResponse(id: Value, result: PhpArray): (r: PhpArray)
    ensures Dict.Keys(r) == [StrKey("jsonrpc"), StrKey("id"), StrKey("result")]
    ensures Lookup(r, "jsonrpc") == Str(JSONRPC) && Lookup(r, "id") == id && Lookup(r, "result") == Arr(result)
  {
    var r := [(StrKey("jsonrpc"), Str(JSONRPC)), (StrKey("id"), id), (StrKey("result"), Arr(result))];
    Dict.Literal3(r[0], r[1], r[2]);
    r
  }

  /** `sendErrorResponse` without data: `{jsonrpc, id, error: {code, message}}`. */
  function ErrorResponse(id: Value, code: int, message: string): (r: PhpArray)
    ensures Dict.Keys(r) == [StrKey("jsonrpc"), StrKey("id"), StrKey("error")]
    ensures Lookup(r, "jsonrpc") == Str(JSONRPC) && Lookup(r, "id") == id
    ensures Lookup(r, "error") == Arr(ErrorObject(code, message, Null))
    ensures !IsSet(r, "result")
  {
    var r := [(StrKey("jsonrpc"), Str(JSONRPC)), (StrKey("id"), id), (StrKey("error"), Arr(ErrorObject(code, message, Null)))];
    Dict.Literal3(r[0], r[1], r[2]);
    r
  }

  /** The result of one send: written when connected, refused with nothing written otherwise. */
  predicate Sent(wasConnected: bool, before: seq<PhpArray>, after: seq<PhpArray>, message: PhpArray, r: Outcome<()>) {
    if wasConnected then r == Ok(()) && after == before + [message]
    else r == Throw(NOT_CONNECTED_ERROR) && after == before
  }

  // ---------------------------------------------------------------------
  // Incoming messages
  // ---------------------------------------------------------------------

  /** What `handleMessage` takes a message for. */
  datatype Kind =
    | Invalid(id: Value, reason: string)
    | Response
    | Request
    | Notification
    | Ignored

  predicate Versioned(m: PhpArray) {
    Lookup(m, "jsonrpc") == Str(JSONRPC)
  }

  /**
   * `handleMessage`'s tests in order: the version, then a response (an id
   * and a result or an error), then a request or notification (a method,
   * with or without an id); what is left is refused when it has an id and
   * ignored otherwise.
   */
  function Classify(m: PhpArray): (k: Kind)
    ensures k == Invalid(Lookup(m, "id"), INVALID_VERSION) <==> !Versioned(m)
    ensures k.Response? <==> Versioned(m) && IsSet(m, "id") && (IsSet(m, "result") || IsSet(m, "error"))
    ensures k.Request? <==> Versioned(m) && IsSet(m, "id") && IsSet(m, "method") && !IsSet(m, "result") && !IsSet(m, "error")
    ensures k.Notification? <==> Versioned(m) && !IsSet(m, "id") && IsSet(m, "method")
    ensures k == Invalid(Lookup(m, "id"), UNRECOGNIZED) <==>
              Versioned(m) && IsSet(m, "id") && !IsSet(m, "method") && !IsSet(m, "result") && !IsSet(m, "error")
    ensures k.Ignored? <==> Versioned(m) && !IsSet(m, "id") && !IsSet(m, "method")
    ensures k.Invalid? ==> k.id == Lookup(m, "id") && (k.reason == INVALID_VERSION || k.reason == UNRECOGNIZED)
  {
    if !Versioned(m) then Invalid(Lookup(m, "id"), INVALID_VERSION)
    else if IsSet(m, "id") && (IsSet(m, "result") || IsSet(m, "error")) then Response
    else if IsSet(m, "method") then (if IsSet(m, "id") then Request else Notification)
    else if IsSet(m, "id") then Invalid(Lookup(m, "id"), UNRECOGNIZED)
    else Ignored
  }

  /** A request waiting for its answer: `resolve` sets the result, `reject` the error. */
  datatype Promise = Promise(completed: bool, result: Value, error: Value)

  const WAITING: Promise := Promise(false, Null, Null)

  /**
   * `handleResponse` as evidently intended: the id is converted to a string;
   * an unknown id is ignored; an error rejects the request and anything else
   * resolves it with `result ?? null`, by calling the closures the promise
   * holds. The entry stays in the table.
   */
  function Recorded(pending: map<string, Promise>, response: PhpArray): (r: Outcome<map<string, Promise>>)
    ensures r.Fatal? <==> AsString(Lookup(response, "id")).None?
    ensures r.Ok? ==> r.value.Keys == pending.Keys
    ensures r.Ok? ==> forall k :: k in pending && k != AsString(Lookup(response, "id")).value ==> r.value[k] == pending[k]
    ensures r.Ok? && AsString(Lookup(response, "id")).value in pending ==>
              var p, q := pending[AsString(Lookup(response, "id")).value], r.value[AsString(Lookup(response, "id")).value];
              q.completed
              && (IsSet(response, "error") ==> q == p.(completed := true, error := Lookup(response, "error")))
              && (!IsSet(response, "error") ==> q == p.(completed := true, result := Lookup(response, "result")))
    ensures r.Ok? && AsString(Lookup(response, "id")).value !in pending ==> r.value == pending
  {
    match AsString(Lookup(response, "id"))
    case None => Fatal(ARGUMENT_TYPE_ERROR)
    case Some(id) =>
      if id !in pending then Ok(pending)
      else if IsSet(response, "error") then Ok(pending[id := pending[id].(completed := true, error := Lookup(response, "error"))])
      else Ok(pending[id := pending[id].(completed := true, result := Lookup(response, "result"))])
  }

  /**
   * The Error PHP raises for `$promise->reject(...)` or `$promise->resolve(...)`:
   * the anonymous promise class declares `resolve` and `reject` as properties
   * holding closures, and a `->name(...)` call looks for a method of that name.
   */
  function UndefinedMethod(name: string): string {
    "Error: Call to undefined method class@anonymous::" + name + "()"
  }

  /**
   * `handleResponse` as written: for a pending id the call of `reject` or
   * `resolve` is an Error that no catch intercepts, so no response ever
   * completes a promise. An unknown id is ignored as in `Recorded`.
   */
  function RecordedAsWritten(pending: map<string, Promise>, response: PhpArray): (r: Outcome<map<string, Promise>>)
    ensures r.Ok? <==> AsString(Lookup(response, "id")).Some? && AsString(Lookup(response, "id")).value !in pending
    ensures r.Ok? ==> r.value == pending
    ensures AsString(Lookup(response, "id")).Some? && AsString(Lookup(response, "id")).value in pending ==>
              r == Fatal(UndefinedMethod(if IsSet(response, "error") then "reject" else "resolve"))
    ensures !r.Throw?
  {
    match AsString(Lookup(response, "id"))
    case None => Fatal(ARGUMENT_TYPE_ERROR)
    case Some(id) =>
      if id !in pending then Ok(pending)
      else Fatal(UndefinedMethod(if IsSet(response, "error") then "reject" else "resolve"))
  }

  /**
   * How `sendRequest` ends once its promise completed: an error becomes a
   * JsonRpcError built from the error's message, code and data (defaults
   * "Unknown error" and -32000), otherwise the result is returned, which must
   * be an array.
   */
  function Settled(p: Promise): (r: Outcome<PhpArray>)
    ensures p.error == Null ==> (r.Ok? <==> p.result.Arr?) && (r.Ok? ==> r.value == p.result.entries) && (!r.Ok? ==> r.Fatal?)
    ensures p.error != Null ==> !r.Ok?
    ensures r.Throw? ==> p.error != Null && r.exc.cls.JsonRpcError? && GetErrorData(r.exc) == Field(p.error, "data")
    ensures p.error.Arr? && Lookup(p.error.entries, "message").Str? && Lookup(p.error.entries, "code").Int? ==>
              r == Throw(RpcError(Lookup(p.error.entries, "message").s, Lookup(p.error.entries, "code").i, Lookup(p.error.entries, "data")))
    ensures p.error != Null && Field(p.error, "message") == Null && Field(p.error, "code") == Null ==>
              r == Throw(RpcError("Unknown error", SERVER_ERROR_END, Field(p.error, "data")))
  {
    if p.error != Null then
      var message := StringParam(Coalesce(Field(p.error, "message"), Str("Unknown error")));
      var code := IntParam(Coalesce(Field(p.error, "code"), Int(SERVER_ERROR_END)));
      if message.None? || code.None? then Fatal(ARGUMENT_TYPE_ERROR)
      else Throw(RpcError(message.value, code.value, Field(p.error, "data")))
    else
      match ArrayParam(p.result)
      case Some(result) => Ok(result)
      case None => Fatal(ARGUMENT_TYPE_ERROR)
  }

  /** `$request['params'] ?? null` as handed to a `?array` parameter; anything else is a TypeError. */
  function ParamsOf(v: Value): (r: Outcome<Option<PhpArray>>)
    ensures r.Ok? <==> v == Null || v.Arr?
    ensures v.Arr? ==> r == Ok(Some(v.entries))
    ensures v == Null ==> r == Ok(None)
  {
    match v
    case Null => Ok(None)
    case Arr(entries) => Ok(Some(entries))
    case _ => Fatal(ARGUMENT_TYPE_ERROR)
  }

  /** The index of the first element that accepts, as a `foreach` with an early `return` finds it. */
  function First<T>(hs: seq<T>, accepts: T -> bool): (r: Option<nat>)
    ensures r.Some? ==> r.value < |hs| && accepts(hs[r.value])
                        && forall j :: 0 <= j < r.value ==> !accepts(hs[j])
    ensures r.None? ==> forall j :: 0 <= j < |hs| ==> !accepts(hs[j])
  {
    if hs == [] then None
    else if accepts(hs[0]) then Some(0)
    else match First(hs[1..], accepts)
      case None => None
      case Some(k) => Some(k + 1)
  }

  /** The first registered request handler that accepts the method. */
  function FirstHandler(hs: seq<RequestHandler>, name: string): (r: Option<nat>)
    ensures r.Some? ==> r.value < |hs| && hs[r.value].CanHandle(name)
                        && forall j :: 0 <= j < r.value ==> !hs[j].CanHandle(name)
    ensures r.None? ==> forall j :: 0 <= j < |hs| ==> !hs[j].CanHandle(name)
  {
    First(hs, (h: RequestHandler) => h.CanHandle(name))
  }

  /** The first registered notification handler that accepts the method. */
  function FirstNotificationHandler(hs: seq<NotificationHandler>, name: string): (r: Option<nat>)
    ensures r.Some? ==> r.value < |hs| && hs[r.value].CanHandle(name)
                        && forall j :: 0 <= j < r.value ==> !hs[j].CanHandle(name)
    ensures r.None? ==> forall j :: 0 <= j < |hs| ==> !hs[j].CanHandle(name)
  {
    First(hs, (h: NotificationHandler) => h.CanHandle(name))
  }

  function ReadsAll(hs: seq<RequestHandler>): set<object> {
    if hs == [] then {} else hs[0].Reads() + ReadsAll(hs[1..])
  }

  function WritesAll(hs: seq<RequestHandler>): (r: set<Session.Session>)
    ensures forall s :: s in r ==> exists i :: 0 <= i < |hs| && hs[i].HasServer() && hs[i].server == s
  {
    if hs == [] then {} else hs[0].Writes() + WritesAll(hs[1..])
  }

  lemma {:induction false} FramesAt(hs: seq<RequestHandler>, i: nat)
    requires i < |hs|
    ensures hs[i].Reads() <= ReadsAll(hs) && hs[i].Writes() <= WritesAll(hs)
  {
    if i > 0 {
      FramesAt(hs[1..], i - 1);
    }
  }

  /**
   * What the answer to a handler's outcome is: the result, or for a thrown
   * exception an error with code -32000 and the exception's message, whatever
   * code the exception carried. An `Error` sends nothing.
   */
  function ReplyTo(id: Value, o: Outcome<PhpArray>): (r: Outcome<PhpArray>)
    ensures r.Ok? <==> !o.Fatal?
    ensures o.Fatal? ==> r == Fatal(o.error)
    ensures o.Ok? && id != Null ==> r == Ok(SuccessResponse(id, o.value))
    ensures o.Ok? && id == Null ==> r == Ok(ErrorResponse(id, SERVER_ERROR_END, NO_ID))
    ensures o.Throw? ==> r == Ok(ErrorResponse(id, SERVER_ERROR_END, o.exc.message))
  {
    match o
    case Ok(result) => if id == Null then Ok(ErrorResponse(id, SERVER_ERROR_END, NO_ID)) else Ok(SuccessResponse(id, result))
    case Throw(e) => Ok(ErrorResponse(id, SERVER_ERROR_END, e.message))
    case Fatal(m) => Fatal(m)
  }

  /**
   * The answer `handleIncomingRequest` gives, which handler served the
   * request, and what that handler did to the server state.
   */
  datatype Dispatch = Dispatch(reply: Outcome<PhpArray>, effect: Effect, handler: Option<nat>)

  /**
   * `handleIncomingRequest` as a function of the registered handlers: the
   * first handler that accepts the method runs; none means -32601
   * "Method not found". The method must pass as a string to `canHandle`
   * (once there is a handler to ask) and the params as an array or null.
   */
  function Respond(hs: seq<RequestHandler>, request: PhpArray): (d: Dispatch)
    reads ReadsAll(hs)
    ensures !d.reply.Throw?
    ensures d.handler.Some? ==> d.handler.value < |hs|
    ensures d.handler.None? ==> d.effect == NoEffect
  {
    var m, id := Lookup(request, "method"), Lookup(request, "id");
    if hs != [] && StringParam(m).None? then Dispatch(Fatal(ARGUMENT_TYPE_ERROR), NoEffect, None)
    else
      var target := if hs == [] then None else FirstHandler(hs, StringParam(m).value);
      match target
      case None =>
        (match AsString(m)
         case None => Dispatch(Fatal(ARGUMENT_TYPE_ERROR), NoEffect, None)
         case Some(text) => Dispatch(Ok(ErrorResponse(id, METHOD_NOT_FOUND, "Method not found: " + text)), NoEffect, None))
      case Some(i) =>
        match ParamsOf(Lookup(request, "params"))
        case Ok(params) =>
          FramesAt(hs, i);
          var (o, e) := hs[i].Run(StringParam(m).value, params);
          Dispatch(ReplyTo(id, o), e, Some(i))
        case _ => Dispatch(Fatal(ARGUMENT_TYPE_ERROR), NoEffect, Some(i))
  }

  /** What `Respond` is once the i-th handler accepted the method and the params passed. */
  lemma RespondServed(hs: seq<RequestHandler>, request: PhpArray, i: nat, params: Option<PhpArray>)
    requires StringParam(Lookup(request, "method")).Some?
    requires FirstHandler(hs, StringParam(Lookup(request, "method")).value) == Some(i)
    requires ParamsOf(Lookup(request, "params")) == Ok(params)
    ensures var run := hs[i].Run(StringParam(Lookup(request, "method")).value, params);
            Respond(hs, request) == Dispatch(ReplyTo(Lookup(request, "id"), run.0), run.1, Some(i))
  {
    FramesAt(hs, i);
  }

  /** The objects the handling of a request may change: the serving handler's server. */
  function Touched(hs: seq<RequestHandler>, d: Dispatch): set<Session.Session> {
    if d.handler.Some? && d.handler.value < |hs| then hs[d.handler.value].Writes() else {}
  }

  /**
   * `handleIncomingNotification` as a function of the registered handlers:
   * the first handler that accepts the method runs, and an exception it
   * throws becomes the line written to the error log. No handler: nothing.
   */
  function Notified(hs: seq<NotificationHandler>, notification: PhpArray): (r: Outcome<Option<string>>)
    ensures !r.Throw?
    ensures hs == [] ==> r == Ok(None)
  {
    var m := Lookup(notification, "method");
    if hs == [] then Ok(None)
    else match StringParam(m)
      case None => Fatal(ARGUMENT_TYPE_ERROR)
      case Some(name) =>
        match FirstNotificationHandler(hs, name)
        case None => Ok(None)
        case Some(i) =>
          match ParamsOf(Lookup(notification, "params"))
          case Ok(params) =>
            (match hs[i].HandleNotification(name, params)
             case Ok(_) => Ok(None)
             case Throw(e) => Ok(Some("Error handling notification '" + name + "': " + e.message))
             case Fatal(msg) => Fatal(msg))
          case _ => Fatal(ARGUMENT_TYPE_ERROR)
  }

  /** Every request id issued so far is the decimal form of a counter value below `counter`. */
  ghost predicate Issued(id: string, counter: int) {
    exists k :: 1 <= k < counter && IntToString(k) == id
  }

  /** The next id has not been issued yet, so it is not pending. */
  lemma FreshId(pending: map<string, Promise>, counter: int)
    requires forall id :: id in pending ==> Issued(id, counter)
    ensures IntToString(counter) !in pending
  {
    if IntToString(counter) in pending {
      var k :| 1 <= k < counter && IntToString(k) == IntToString(counter);
      IntToStringInjective(k, counter);
    }
  }

  class Engine {
    const transport: Transport
    var requestHandlers: seq<RequestHandler>
    var notificationHandlers: seq<NotificationHandler>
    /** The requests sent and not yet finished, by id. */
    var pendingRequests: map<string, Promise>
    var requestIdCounter: int

    ghost predicate Valid()
      reads this
    {
      requestIdCounter >= 1 && forall id :: id in pendingRequests ==> Issued(id, requestIdCounter)
    }

    /** A new engine over the transport: no handlers, nothing pending, ids start at 1. */
    constructor (transport: Transport)
      ensures Valid()
      ensures this.transport == transport
      ensures requestHandlers == [] && notificationHandlers == [] && pendingRequests == map[] && requestIdCounter == 1
    {
      this.transport := transport;
      requestHandlers, notificationHandlers := [], [];
      pendingRequests, requestIdCounter := map[], 1;
    }

    /** `connect()`. */
    method Connect()
      modifies transport
      ensures transport.connected && transport.sent == old(transport.sent)
    {
      transport.Connect();
    }

    /** `disconnect()`: the requests still waiting are forgotten, not failed. */
    method Disconnect()
      requires Valid()
      modifies this, transport
      ensures Valid()
      ensures !transport.connected && transport.sent == old(transport.sent)
      ensures pendingRequests == map[]
      ensures requestHandlers == old(requestHandlers) && notificationHandlers == old(notificationHandlers)
      ensures requestIdCounter == old(requestIdCounter)
    {
      transport.Disconnect();
      pendingRequests := map[];
    }

    /** `registerRequestHandler($handler)`: appended after those already registered. */
    method RegisterRequestHandler(h: RequestHandler)
      requires Valid()
      modifies this
      ensures Valid()
      ensures requestHandlers == old(requestHandlers) + [h]
      ensures notificationHandlers == old(notificationHandlers) && pendingRequests == old(pendingRequests)
      ensures requestIdCounter == old(requestIdCounter)
    {
      requestHandlers := requestHandlers + [h];
    }

    /** `registerNotificationHandler($handler)`. */
    method RegisterNotificationHandler(h: NotificationHandler)
      requires Valid()
      modifies this
      ensures Valid()
      ensures notificationHandlers == old(notificationHandlers) + [h]
      ensures requestHandlers == old(requestHandlers) && pendingRequests == old(pendingRequests)
      ensures requestIdCounter == old(requestIdCounter)
    {
      notificationHandlers := notificationHandlers + [h];
    }

    /**
     * The first half of `sendRequest($method, $params)`: refused when the
     * transport is not connected; otherwise the next id is taken, the request
     * is registered as waiting and then written. The id is one no pending
     * request has.
     */
    method SendRequest(methodName: string, params: Option<PhpArray>) returns (r: Outcome<string>)
      requires Valid()
      modifies this, transport
      ensures Valid()
      ensures requestHandlers == old(requestHandlers) && notificationHandlers == old(notificationHandlers)
      ensures transport.connected == old(transport.connected)
      ensures !old(transport.connected) ==>
                r == Throw(NOT_CONNECTED_ERROR) && transport.sent == old(transport.sent)
                && pendingRequests == old(pendingRequests) && requestIdCounter == old(requestIdCounter)
      ensures old(transport.connected) ==>
                r == Ok(IntToString(old(requestIdCounter)))
                && r.value !in old(pendingRequests)
                && pendingRequests == old(pendingRequests)[r.value := WAITING]
                && requestIdCounter == old(requestIdCounter) + 1
                && transport.sent == old(transport.sent) + [RequestMessage(r.value, methodName, params)]
    {
      if !transport.IsConnected() {
        return Throw(NOT_CONNECTED_ERROR);
      }
      var id := IntToString(requestIdCounter);
      FreshId(pendingRequests, requestIdCounter);
      requestIdCounter := requestIdCounter + 1;
      var request := RequestMessage(id, methodName, params);
      pendingRequests := pendingRequests[id := WAITING];
      assert Issued(id, requestIdCounter);
      var sent := transport.Send(request);
      return Ok(id);
    }

    /**
     * The end of `sendRequest`'s wait: while the request is not completed
     * (or no longer pending, after a disconnect) it goes on waiting; once
     * completed it is removed and ends as `Settled` says.
     */
    method Finish(id: string) returns (r: Option<Outcome<PhpArray>>)
      requires Valid()
      modifies this
      ensures Valid()
      ensures requestHandlers == old(requestHandlers) && notificationHandlers == old(notificationHandlers)
      ensures requestIdCounter == old(requestIdCounter)
      ensures id !in old(pendingRequests) || !old(pendingRequests)[id].completed ==>
                r.None? && pendingRequests == old(pendingRequests)
      ensures id in old(pendingRequests) && old(pendingRequests)[id].completed ==>
                r == Some(Settled(old(pendingRequests)[id])) && pendingRequests == old(pendingRequests) - {id}
    {
      if id !in pendingRequests || !pendingRequests[id].completed {
        return None;
      }
      var promise := pendingRequests[id];
      pendingRequests := pendingRequests - {id};
      return Some(Settled(promise));
    }

    /**
     * `sendRequest`'s timeout: with a positive timeout (in whole seconds) the
     * request is dropped and fails with "Request timed out after N seconds";
     * a timeout of 0 never fires.
     */
    method Timeout(id: string, timeout: nat) returns (r: Option<Exception>)
      requires Valid()
      modifies this
      ensures Valid()
      ensures requestHandlers == old(requestHandlers) && notificationHandlers == old(notificationHandlers)
      ensures requestIdCounter == old(requestIdCounter)
      ensures timeout == 0 ==> r.None? && pendingRequests == old(pendingRequests)
      ensures timeout > 0 ==>
                r == Some(Exception(RuntimeException, "Request timed out after " + NatToString(timeout) + " seconds"))
                && pendingRequests == old(pendingRequests) - {id}
    {
      if timeout == 0 {
        return None;
      }
      pendingRequests := pendingRequests - {id};
      return Some(Exception(RuntimeException, "Request timed out after " + NatToString(timeout) + " seconds"));
    }

    /** `sendNotification($method, $params)`: refused when not connected. */
    method SendNotification(methodName: string, params: Option<PhpArray>) returns (r: Outcome<()>)
      modifies transport
      ensures transport.connected == old(transport.connected)
      ensures Sent(old(transport.connected), old(transport.sent), transport.sent, NotificationMessage(methodName, params), r)
    {
      if !transport.IsConnected() {
        return Throw(NOT_CONNECTED_ERROR);
      }
      r := transport.Send(NotificationMessage(methodName, params));
    }

    /**
     * `handleResponse($response)` as evidently intended, per `Recorded`: the
     * pending request is completed; nothing is sent.
     */
    method HandleResponse(response: PhpArray) returns (r: Outcome<()>)
      requires Valid()
      modifies this
      ensures Valid()
      ensures requestHandlers == old(requestHandlers) && notificationHandlers == old(notificationHandlers)
      ensures requestIdCounter == old(requestIdCounter)
      ensures match old(Recorded(pendingRequests, response))
              case Ok(next) => r == Ok(()) && pendingRequests == next
              case _ => r.Fatal? && pendingRequests == old(pendingRequests)
    {
      var next := Recorded(pendingRequests, response);
      if next.Ok? {
        pendingRequests := next.value;
        return Ok(());
      }
      return Fatal(ARGUMENT_TYPE_ERROR);
    }

    /**
     * A send inside `handleIncomingRequest`'s try block: if it throws, the
     * catch sends an error response, which is refused the same way.
     */
    method SendGuarded(id: Value, message: PhpArray) returns (r: Outcome<()>)
      modifies transport
      ensures transport.connected == old(transport.connected)
      ensures Sent(old(transport.connected), old(transport.sent), transport.sent, message, r)
    {
      var first := transport.Send(message);
      if first.Throw? {
        r := transport.Send(ErrorResponse(id, SERVER_ERROR_END, first.exc.message));
      } else {
        r := first;
      }
    }

    /** Sends the answer to a handler's outcome, as `ReplyTo` states it. */
    method Reply(id: Value, o: Outcome<PhpArray>) returns (r: Outcome<()>)
      modifies transport
      ensures transport.connected == old(transport.connected)
      ensures ReplyTo(id, o).Ok? ==> Sent(old(transport.connected), old(transport.sent), transport.sent, ReplyTo(id, o).value, r)
      ensures ReplyTo(id, o).Fatal? ==> r == Fatal(ReplyTo(id, o).error) && transport.sent == old(transport.sent)
    {
      match o {
        case Fatal(m) =>
          return Fatal(m);
        case Throw(e) =>
          r := transport.Send(ErrorResponse(id, SERVER_ERROR_END, e.message));
        case Ok(result) =>
          if id == Null {
            r := transport.Send(ErrorResponse(id, SERVER_ERROR_END, NO_ID));
          } else {
            r := SendGuarded(id, SuccessResponse(id, result));
          }
      }
    }

    /**
     * One pass of `handleIncomingRequest`'s loop that found its handler: the
     * handler runs, then its answer is sent.
     */
    method Serve(h: RequestHandler, methodName: string, id: Value, params: Option<PhpArray>) returns (r: Outcome<()>)
      modifies transport, h.Writes()
      ensures transport.connected == old(transport.connected)
      ensures var o := old(h.Run(methodName, params)).0;
              (ReplyTo(id, o).Ok? ==> Sent(old(transport.connected), old(transport.sent), transport.sent, ReplyTo(id, o).value, r))
              && (ReplyTo(id, o).Fatal? ==> r == Fatal(ReplyTo(id, o).error) && transport.sent == old(transport.sent))
      ensures h.Applied(old(h.Run(methodName, params)).1)
    {
      var o := Invoke(h, methodName, params);
      r := Reply(id, o);
    }

    /**
     * The rest of `handleIncomingRequest` once the i-th handler accepted the
     * method: the params must pass as an array or null, then it serves.
     */
    method ServeAt(request: PhpArray, i: nat) returns (r: Outcome<()>)
      requires StringParam(Lookup(request, "method")).Some?
      requires FirstHandler(requestHandlers, StringParam(Lookup(request, "method")).value) == Some(i)
      modifies transport, WritesAll(requestHandlers)
      ensures transport.connected == old(transport.connected)
      ensures var d := old(Respond(requestHandlers, request));
              (d.reply.Ok? ==> Sent(old(transport.connected), old(transport.sent), transport.sent, d.reply.value, r))
              && (d.reply.Fatal? ==> r == Fatal(d.reply.error) && transport.sent == old(transport.sent))
      ensures var d := old(Respond(requestHandlers, request));
              d.handler.Some? ==> requestHandlers[d.handler.value].Applied(d.effect)
      ensures unchanged(old(WritesAll(requestHandlers) - Touched(requestHandlers, Respond(requestHandlers, request))))
    {
      var hs := requestHandlers;
      var name := StringParam(Lookup(request, "method")).value;
      var id := Lookup(request, "id");
      var params := ParamsOf(Lookup(request, "params"));
      if !params.Ok? {
        return Fatal(ARGUMENT_TYPE_ERROR);
      }
      RespondServed(hs, request, i, params.value);
      FramesAt(hs, i);
      r := Serve(hs[i], name, id, params.value);
    }

    /**
     * `handleIncomingRequest($request)`: asks the handlers in registration
     * order, runs the first that accepts the method and sends its answer.
     */
    method HandleIncomingRequest(request: PhpArray) returns (r: Outcome<()>)
      modifies transport, WritesAll(requestHandlers)
      ensures transport.connected == old(transport.connected)
      ensures var d := old(Respond(requestHandlers, request));
              (d.reply.Ok? ==> Sent(old(transport.connected), old(transport.sent), transport.sent, d.reply.value, r))
              && (d.reply.Fatal? ==> r == Fatal(d.reply.error) && transport.sent == old(transport.sent))
      ensures var d := old(Respond(requestHandlers, request));
              d.handler.Some? ==> requestHandlers[d.handler.value].Applied(d.effect)
      ensures unchanged(old(WritesAll(requestHandlers) - Touched(requestHandlers, Respond(requestHandlers, request))))
    {
      var hs := requestHandlers;
      var name := StringParam(Lookup(request, "method"));
      var i := 0;
      while i < |hs|
        invariant 0 <= i <= |hs|
        invariant i > 0 ==> name.Some? && forall j :: 0 <= j < i ==> !hs[j].CanHandle(name.value)
      {
        if name.None? {
          return Fatal(ARGUMENT_TYPE_ERROR);
        }
        if hs[i].CanHandle(name.value) {
          assert FirstHandler(hs, name.value) == Some(i);
          break;
        }
        i := i + 1;
      }
      if i < |hs| {
        r := ServeAt(request, i);
        return;
      }
      r := RejectUnknown(request);
    }

    /**
     * The end of `handleIncomingRequest` when no handler accepted the method:
     * -32601 "Method not found", once the method converts to a string.
     */
    method RejectUnknown(request: PhpArray) returns (r: Outcome<()>)
      requires requestHandlers != [] ==>
                 StringParam(Lookup(request, "method")).Some?
                 && FirstHandler(requestHandlers, StringParam(Lookup(request, "method")).value).None?
      modifies transport
      ensures transport.connected == old(transport.connected)
      ensures var d := old(Respond(requestHandlers, request));
              d.handler.None?
              && (d.reply.Ok? ==> Sent(old(transport.connected), old(transport.sent), transport.sent, d.reply.value, r))
              && (d.reply.Fatal? ==> r == Fatal(d.reply.error) && transport.sent == old(transport.sent))
      ensures unchanged(old(WritesAll(requestHandlers)))
    {
      var m, id := Lookup(request, "method"), Lookup(request, "id");
      var text := AsString(m);
      if text.None? {
        assert Respond(requestHandlers, request) == Dispatch(Fatal(ARGUMENT_TYPE_ERROR), NoEffect, None);
        return Fatal(ARGUMENT_TYPE_ERROR);
      }
      var message := ErrorResponse(id, METHOD_NOT_FOUND, "Method not found: " + text.value);
      assert Respond(requestHandlers, request) == Dispatch(Ok(message), NoEffect, None);
      r := SendGuarded(id, message);
    }

    /**
     * `handleIncomingNotification($notification)`: nothing is ever sent; the
     * result is the line written to the error log, if any.
     */
    method HandleIncomingNotification(notification: PhpArray) returns (r: Outcome<Option<string>>)
      ensures r == Notified(notificationHandlers, notification)
    {
      var hs := notificationHandlers;
      var m := Lookup(notification, "method");
      var i := 0;
      while i < |hs|
        invariant 0 <= i <= |hs|
        invariant i > 0 ==> StringParam(m).Some? && forall j :: 0 <= j < i ==> !hs[j].CanHandle(StringParam(m).value)
      {
        var name := StringParam(m);
        if name.None? {
          return Fatal(ARGUMENT_TYPE_ERROR);
        }
        var h := hs[i];
        if h.CanHandle(name.value) {
          assert FirstNotificationHandler(hs, name.value) == Some(i);
          var params := ParamsOf(Lookup(notification, "params"));
          if !params.Ok? {
            return Fatal(ARGUMENT_TYPE_ERROR);
          }
          var handled := h.HandleNotification(name.value, params.value);
          match handled {
            case Ok(_) => r := Ok(None);
            case Throw(e) => r := Ok(Some("Error handling notification '" + name.value + "': " + e.message));
            case Fatal(msg) => r := Fatal(msg);
          }
          return;
        }
        i := i + 1;
      }
      assert hs != [] ==> FirstNotificationHandler(hs, StringParam(m).value).None?;
      return Ok(None);
    }

    /**
     * `handleMessage($message)`: refuses a message of another version even
     * without an id, completes a pending request with a response, serves a
     * request, hands a notification to its handler and refuses anything else
     * that has an id.
     */
    method HandleMessage(message: PhpArray) returns (r: Outcome<()>, logged: Option<string>)
      requires Valid()
      modifies this, transport, WritesAll(requestHandlers)
      ensures Valid()
      ensures requestHandlers == old(requestHandlers) && notificationHandlers == old(notificationHandlers)
      ensures requestIdCounter == old(requestIdCounter)
      ensures transport.connected == old(transport.connected)
      ensures logged.Some? ==> Classify(message).Notification?
      ensures !Classify(message).Response? ==> pendingRequests == old(pendingRequests)
      ensures !Classify(message).Request? ==> unchanged(old(WritesAll(requestHandlers)))
      ensures match Classify(message)
              case Invalid(id, reason) => Sent(old(transport.connected), old(transport.sent), transport.sent, ErrorResponse(id, INVALID_REQUEST, reason), r)
              case Response =>
                transport.sent == old(transport.sent)
                && (match old(Recorded(pendingRequests, message))
                    case Ok(next) => r == Ok(()) && pendingRequests == next
                    case _ => r.Fatal? && pendingRequests == old(pendingRequests))
              case Request =>
                var d := old(Respond(requestHandlers, message));
                (d.reply.Ok? ==> Sent(old(transport.connected), old(transport.sent), transport.sent, d.reply.value, r))
                && (d.reply.Fatal? ==> r == Fatal(d.reply.error) && transport.sent == old(transport.sent))
                && (d.handler.Some? ==> requestHandlers[d.handler.value].Applied(d.effect))
                && unchanged(old(WritesAll(requestHandlers) - Touched(requestHandlers, d)))
              case Notification =>
                transport.sent == old(transport.sent)
                && (match Notified(notificationHandlers, message)
                    case Ok(line) => r == Ok(()) && logged == line
                    case _ => r.Fatal? && logged.None?)
              case Ignored => r == Ok(()) && transport.sent == old(transport.sent)
    {
      logged := None;
      match Classify(message) {
        case Invalid(id, reason) =>
          r := transport.Send(ErrorResponse(id, INVALID_REQUEST, reason));
        case Response =>
          r := HandleResponse(message);
        case Request =>
          r := HandleIncomingRequest(message);
        case Notification =>
          var n := HandleIncomingNotification(message);
          if n.Ok? {
            r, logged := Ok(()), n.value;
          } else {
            r := Fatal(ARGUMENT_TYPE_ERROR);
          }
        case Ignored =>
          r := Ok(());
      }
    }
  }
}
