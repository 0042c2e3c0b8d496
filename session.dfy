/**
 * The server's own state: who it is, what it supports, whether a client
 * has initialized it, and which resource URIs have subscribers.
 */
module Session {
  import opened Wrappers
  import opened Values
  import opened Errors
  import opened Types
  import opened Capabilities
  import Dict

  /** The part of the server state that `initialize` reads and writes. */
  datatype InitState = InitState(initialized: bool, clientCapabilities: Option<PhpArray>)

  /**
   * `initialize($params)`: refused once initialized; otherwise it records the
   * client's capabilities and marks the server initialized, then builds the
   * result from the server info. The protocol version in the result is the
   * default, since the params carry none. A server info without a usable
   * name or version fails only after the state has changed.
   */
  function InitializeStep(st: InitState, params: InitializeParams, serverInfo: PhpArray, capabilities: PhpArray)
    : (r: (Outcome<InitializeResult>, InitState))
    ensures st.initialized ==> r == (Throw(RpcError("Server already initialized", INVALID_REQUEST)), st)
    ensures !st.initialized ==> r.1 == InitState(true, Some(params.capabilities))
    ensures !st.initialized ==>
              (r.0.Ok? <==> StringParam(Lookup(serverInfo, "name")).Some? && StringParam(Lookup(serverInfo, "version")).Some?)
    ensures !st.initialized && !r.0.Ok? ==> r.0.Fatal?
    ensures r.0.Ok? ==> r.0.value == InitializeResult.Create(StringParam(Lookup(serverInfo, "name")).value,
                                                            StringParam(Lookup(serverInfo, "version")).value,
                                                            capabilities)
  {
    if st.initialized then (Throw(RpcError("Server already initialized", INVALID_REQUEST)), st)
    else
      var st' := InitState(true, Some(params.capabilities));
      var name := StringParam(Lookup(serverInfo, "name"));
      var version := StringParam(Lookup(serverInfo, "version"));
      if name.None? || version.None? then (Fatal(ARGUMENT_TYPE_ERROR), st')
      else (Ok(InitializeResult.Create(name.value, version.value, capabilities, DEFAULT_PROTOCOL_VERSION)), st')
  }

  /** `getClientCapabilities()`: refused until the server is initialized. */
  function ClientCapabilities(st: InitState): (r: Outcome<Option<PhpArray>>)
    ensures !st.initialized ==> r == Throw(Exception(RuntimeException, "Server not initialized"))
    ensures st.initialized ==> r == Ok(st.clientCapabilities)
  {
    if !st.initialized then Throw(Exception(RuntimeException, "Server not initialized"))
    else Ok(st.clientCapabilities)
  }

  /** Once initialized, always initialized: no call of `initialize` resets the flag. */
  lemma InitializedStaysInitialized(st: InitState, params: InitializeParams, serverInfo: PhpArray, capabilities: PhpArray)
    ensures InitializeStep(st, params, serverInfo, capabilities).1.initialized
  {
  }

  /** A second `initialize` is refused with -32600 and changes nothing. */
  lemma SecondInitializeIsRefused(st: InitState, p1: InitializeParams, p2: InitializeParams, serverInfo: PhpArray, capabilities: PhpArray)
    requires !st.initialized
    ensures var st1 := InitializeStep(st, p1, serverInfo, capabilities).1;
            InitializeStep(st1, p2, serverInfo, capabilities) == (Throw(RpcError("Server already initialized", INVALID_REQUEST)), st1)
            && GetCode(InitializeStep(st1, p2, serverInfo, capabilities).0.exc) == -32600
  {
  }

  /** After the first `initialize`, `getClientCapabilities` returns what the client sent. */
  lemma CapabilitiesAfterInitialize(st: InitState, params: InitializeParams, serverInfo: PhpArray, capabilities: PhpArray)
    requires !st.initialized
    ensures ClientCapabilities(InitializeStep(st, params, serverInfo, capabilities).1) == Ok(Some(params.capabilities))
  {
  }

  /** Whatever the client sends, a successful result announces version 2024-11-05. */
  lemma ProtocolVersionIsAlwaysDefault(st: InitState, params: InitializeParams, serverInfo: PhpArray, capabilities: PhpArray)
    ensures var r := InitializeStep(st, params, serverInfo, capabilities).0;
            r.Ok? ==> Lookup(r.value.ToArray(), "protocolVersion") == Str("2024-11-05")
  {
  }

  /** Subscribing twice is subscribing once. */
  lemma SubscribeIsIdempotent(subs: seq<(string, bool)>, uri: string)
    ensures Dict.Put(Dict.Put(subs, uri, true), uri, true) == Dict.Put(subs, uri, true)
  {
    Dict.PutIdempotent(subs, uri, true);
  }

  class Session {
    const serverInfo: PhpArray
    const capabilities: ServerCapabilities
    var initialized: bool
    var clientCapabilities: Option<PhpArray>
    /** The subscribed URIs, each mapped to true. */
    var resourceSubscriptions: seq<(string, bool)>

    ghost predicate Valid()
      reads this
    {
      Dict.UniqueKeys(resourceSubscriptions) && (!initialized ==> clientCapabilities.None?)
    }

    /** The state of a new server: not initialized, no client capabilities, no subscriptions. */
    constructor (serverInfo: PhpArray, capabilities: ServerCapabilities)
      ensures Valid()
      ensures this.serverInfo == serverInfo && this.capabilities == capabilities
      ensures !initialized && clientCapabilities.None? && resourceSubscriptions == []
    {
      this.serverInfo := serverInfo;
      this.capabilities := capabilities;
      initialized := false;
      clientCapabilities := None;
      resourceSubscriptions := [];
    }

    function State(): (st: InitState)
      reads this
      ensures st.initialized == initialized && st.clientCapabilities == clientCapabilities
    {
      InitState(initialized, clientCapabilities)
    }

    /** `initialize($params)`. */
    method Initialize(params: InitializeParams) returns (r: Outcome<InitializeResult>)
      modifies this
      ensures resourceSubscriptions == old(resourceSubscriptions)
      ensures (r, State()) == old(InitializeStep(State(), params, serverInfo, capabilities.ToArray()))
      ensures initialized && (old(Valid()) ==> Valid())
    {
      ghost var caps0 := capabilities.ToArray();
      ghost var step := InitializeStep(State(), params, serverInfo, caps0);
      if initialized {
        return Throw(RpcError("Server already initialized", INVALID_REQUEST));
      }
      clientCapabilities := Some(params.capabilities);
      initialized := true;
      assert State() == step.1;
      var name := StringParam(Lookup(serverInfo, "name"));
      var version := StringParam(Lookup(serverInfo, "version"));
      if name.None? || version.None? {
        return Fatal(ARGUMENT_TYPE_ERROR);
      }
      var caps := capabilities.ToArray();
      assert caps == caps0;
      return Ok(InitializeResult.Create(name.value, version.value, caps, DEFAULT_PROTOCOL_VERSION));
    }

    /** `isInitialized()`. */
    function IsInitialized(): (r: bool)
      reads this
      ensures r == initialized
    {
      initialized
    }

    /** `getClientCapabilities()`. */
    function GetClientCapabilities(): (r: Outcome<Option<PhpArray>>)
      reads this
      ensures r == ClientCapabilities(State())
    {
      if !initialized then Throw(Exception(RuntimeException, "Server not initialized"))
      else Ok(clientCapabilities)
    }

    /** `addResourceSubscription($uri)`. */
    method AddResourceSubscription(uri: string)
      modifies this
      ensures old(Valid()) ==> Valid()
      ensures resourceSubscriptions == Dict.Put(old(resourceSubscriptions), uri, true)
      ensures GetResourceSubscriptions() == if old(HasResourceSubscription(uri)) then old(GetResourceSubscriptions())
                                            else old(GetResourceSubscriptions()) + [uri]
      ensures HasResourceSubscription(uri)
      ensures forall u :: u != uri ==> HasResourceSubscription(u) == old(HasResourceSubscription(u))
      ensures initialized == old(initialized) && clientCapabilities == old(clientCapabilities)
    {
      resourceSubscriptions := Dict.Put(resourceSubscriptions, uri, true);
    }

    /** `removeResourceSubscription($uri)`: removing an absent URI changes nothing. */
    method RemoveResourceSubscription(uri: string)
      modifies this
      ensures old(Valid()) ==> Valid()
      ensures resourceSubscriptions == Dict.Remove(old(resourceSubscriptions), uri)
      ensures GetResourceSubscriptions() == Dict.Without(old(GetResourceSubscriptions()), uri)
      ensures !HasResourceSubscription(uri)
      ensures forall u :: u != uri ==> HasResourceSubscription(u) == old(HasResourceSubscription(u))
      ensures !old(HasResourceSubscription(uri)) ==> resourceSubscriptions == old(resourceSubscriptions)
      ensures initialized == old(initialized) && clientCapabilities == old(clientCapabilities)
    {
      resourceSubscriptions := Dict.Remove(resourceSubscriptions, uri);
    }

    /** `hasResourceSubscription($uri)`. */
    function HasResourceSubscription(uri: string): (r: bool)
      reads this
      ensures r <==> Dict.Get(resourceSubscriptions, uri).Some?
    {
      Dict.HasKey(resourceSubscriptions, uri)
    }

    /** `getResourceSubscriptions()`: every subscribed URI once, oldest subscription first. */
    function GetResourceSubscriptions(): (r: seq<string>)
      reads this
      ensures forall u :: u in r <==> HasResourceSubscription(u)
      ensures Valid() ==> Dict.Distinct(r)
    {
      Dict.Keys(resourceSubscriptions)
    }
  }
}
