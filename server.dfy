/**
 * The MCP server object: it owns the session state, registers its handlers
 * with the protocol engine in a fixed order, and sends the resource
 * notifications.
 */
module Server {
  import opened Wrappers
  import opened Values
  import opened Errors
  import opened Capabilities
  import opened Provider
  import opened Handlers
  import opened Protocol
  import Session
  import Tools

  /** `ResourceUpdatedNotification::notify($uri)`: one `updated` notification carrying `{uri}`. */
  method NotifyUpdated(protocol: Engine, uri: string) returns (r: Outcome<()>)
    modifies protocol.transport
    ensures protocol.transport.connected == old(protocol.transport.connected)
    ensures Sent(old(protocol.transport.connected), old(protocol.transport.sent), protocol.transport.sent,
                 NotificationMessage(UPDATED, Some(UpdatedParams(uri))), r)
  {
    r := protocol.SendNotification(UPDATED, Some(UpdatedParams(uri)));
  }

  /** `ResourceListChangedNotification::notify()`: one `list_changed` notification without params. */
  method NotifyListChanged(protocol: Engine) returns (r: Outcome<()>)
    modifies protocol.transport
    ensures protocol.transport.connected == old(protocol.transport.connected)
    ensures Sent(old(protocol.transport.connected), old(protocol.transport.sent), protocol.transport.sent,
                 NotificationMessage(LIST_CHANGED, None), r)
  {
    r := protocol.SendNotification(LIST_CHANGED, None);
  }

  /** `s` is what is left of `t` after some leading elements. */
  ghost predicate EndsWith<T>(t: seq<T>, s: seq<T>) {
    |s| <= |t| && t[|t| - |s|..] == s
  }

  class McpServer {
    const protocol: Engine
    const session: Session.Session
    /** The handlers this server registered, in order; each is also registered with the protocol. */
    var requestHandlers: seq<RequestHandler>
    var notificationHandlers: seq<NotificationHandler>

    /**
     * The initialize handler comes first, and what the server registered is
     * the latest part of what the protocol holds, in the same order.
     */
    ghost predicate Valid()
      reads this, protocol, session
    {
      protocol.Valid() && session.Valid()
      && |requestHandlers| >= 1 && requestHandlers[0] == InitializeHandler(session)
      && EndsWith(protocol.requestHandlers, requestHandlers)
      && EndsWith(protocol.notificationHandlers, notificationHandlers)
    }

    /**
     * `new MCPServer($protocol, $serverInfo, $capabilities)`: a fresh session
     * (default capabilities when none are given), and the initialize handler
     * registered with the protocol.
     */
    constructor (protocol: Engine, serverInfo: PhpArray, capabilities: Option<ServerCapabilities>)
      requires protocol.Valid()
      modifies protocol
      ensures Valid()
      ensures this.protocol == protocol && fresh(session)
      ensures session.serverInfo == serverInfo && !session.initialized && session.resourceSubscriptions == []
      ensures capabilities.Some? ==> session.capabilities == capabilities.value
      ensures capabilities.None? ==> fresh(session.capabilities) && session.capabilities.ToArray() == []
      ensures requestHandlers == [InitializeHandler(session)] && notificationHandlers == []
      ensures protocol.requestHandlers == old(protocol.requestHandlers) + [InitializeHandler(session)]
      ensures protocol.notificationHandlers == old(protocol.notificationHandlers)
      ensures protocol.pendingRequests == old(protocol.pendingRequests)
    {
      var caps: ServerCapabilities;
      if capabilities.Some? {
        caps := capabilities.value;
      } else {
        caps := new ServerCapabilities();
      }
      var s := new Session.Session(serverInfo, caps);
      this.protocol := protocol;
      this.session := s;
      requestHandlers, notificationHandlers := [], [];
      new;
      protocol.RegisterRequestHandler(InitializeHandler(s));
      requestHandlers := [InitializeHandler(s)];
      AppendKeepsEnd(old(protocol.requestHandlers), [], InitializeHandler(s));
      assert EndsWith(protocol.notificationHandlers, []);
    }

    /** `registerRequestHandler($handler)`: appended to this server's list and to the protocol's. */
    method RegisterRequestHandler(h: RequestHandler)
      requires Valid()
      modifies this, protocol
      ensures Valid()
      ensures requestHandlers == old(requestHandlers) + [h]
      ensures protocol.requestHandlers == old(protocol.requestHandlers) + [h]
      ensures notificationHandlers == old(notificationHandlers)
      ensures protocol.notificationHandlers == old(protocol.notificationHandlers)
      ensures protocol.pendingRequests == old(protocol.pendingRequests)
      ensures protocol.requestIdCounter == old(protocol.requestIdCounter)
    {
      requestHandlers := requestHandlers + [h];
      protocol.RegisterRequestHandler(h);
      AppendKeepsEnd(old(protocol.requestHandlers), old(requestHandlers), h);
    }

    /** `registerNotificationHandler($handler)`. */
    method RegisterNotificationHandler(h: NotificationHandler)
      requires Valid()
      modifies this, protocol
      ensures Valid()
      ensures notificationHandlers == old(notificationHandlers) + [h]
      ensures protocol.notificationHandlers == old(protocol.notificationHandlers) + [h]
      ensures requestHandlers == old(requestHandlers)
      ensures protocol.requestHandlers == old(protocol.requestHandlers)
      ensures protocol.pendingRequests == old(protocol.pendingRequests)
      ensures protocol.requestIdCounter == old(protocol.requestIdCounter)
    {
      notificationHandlers := notificationHandlers + [h];
      protocol.RegisterNotificationHandler(h);
      AppendKeepsEnd(old(protocol.notificationHandlers), old(notificationHandlers), h);
    }

    /** `start()`: connects the protocol's transport. */
    method Start()
      modifies protocol.transport
      ensures protocol.transport.connected && protocol.transport.sent == old(protocol.transport.sent)
    {
      protocol.Connect();
    }

    /** `stop()`: disconnects, forgetting the requests still waiting. */
    method Stop()
      requires Valid()
      modifies protocol, protocol.transport
      ensures Valid()
      ensures !protocol.transport.connected && protocol.transport.sent == old(protocol.transport.sent)
      ensures protocol.pendingRequests == map[]
      ensures protocol.requestHandlers == old(protocol.requestHandlers)
      ensures protocol.notificationHandlers == old(protocol.notificationHandlers)
    {
      protocol.Disconnect();
    }

    /** `notifyResourceUpdated($uri)`: sent only when the URI has a subscriber. */
    method NotifyResourceUpdated(uri: string) returns (r: Outcome<()>)
      modifies protocol.transport
      ensures protocol.transport.connected == old(protocol.transport.connected)
      ensures session.HasResourceSubscription(uri) ==>
                Sent(old(protocol.transport.connected), old(protocol.transport.sent), protocol.transport.sent,
                     NotificationMessage(UPDATED, Some(UpdatedParams(uri))), r)
      ensures !session.HasResourceSubscription(uri) ==> r == Ok(()) && protocol.transport.sent == old(protocol.transport.sent)
    {
      if session.HasResourceSubscription(uri) {
        r := NotifyUpdated(protocol, uri);
      } else {
        r := Ok(());
      }
    }

    /** `notifyResourceListChanged()`: always sent. */
    method NotifyResourceListChanged() returns (r: Outcome<()>)
      modifies protocol.transport
      ensures protocol.transport.connected == old(protocol.transport.connected)
      ensures Sent(old(protocol.transport.connected), old(protocol.transport.sent), protocol.transport.sent,
                   NotificationMessage(LIST_CHANGED, None), r)
    {
      r := NotifyListChanged(protocol);
    }

    /**
     * `setupResourceFeature($provider)`: list, read, templates, subscribe and
     * unsubscribe handlers in that order, then the list-changed and updated
     * notifications.
     */
    method SetupResourceFeature(provider: InMemoryResourceProvider)
      requires Valid()
      modifies this, protocol
      ensures Valid()
      ensures requestHandlers == old(requestHandlers) + ResourceHandlers(provider, session)
      ensures protocol.requestHandlers == old(protocol.requestHandlers) + ResourceHandlers(provider, session)
      ensures notificationHandlers == old(notificationHandlers) + [ResourceListChangedNotification, ResourceUpdatedNotification]
      ensures protocol.notificationHandlers ==
                old(protocol.notificationHandlers) + [ResourceListChangedNotification, ResourceUpdatedNotification]
      ensures protocol.pendingRequests == old(protocol.pendingRequests)
    {
      var hs := ResourceHandlers(provider, session);
      RegisterRequestHandler(hs[0]);
      RegisterRequestHandler(hs[1]);
      RegisterRequestHandler(hs[2]);
      RegisterRequestHandler(hs[3]);
      RegisterRequestHandler(hs[4]);
      assert requestHandlers == old(requestHandlers) + hs;
      assert protocol.requestHandlers == old(protocol.requestHandlers) + hs;
      RegisterNotificationHandler(ResourceListChangedNotification);
      RegisterNotificationHandler(ResourceUpdatedNotification);
    }
  }

  /**
   * `ToolServer::registerHandlers($server, $toolRegistry)`: the tools/list
   * handler, then the tools/call handler, registered with the server.
   */
  method RegisterToolHandlers(server: McpServer, registry: Tools.ToolRegistry, jsonEncode: Value -> Option<string>)
    requires server.Valid()
    modifies server, server.protocol
    ensures server.Valid()
    ensures server.requestHandlers == old(server.requestHandlers) + [ToolsListHandler(registry), ToolsCallHandler(registry, jsonEncode)]
    ensures server.protocol.requestHandlers ==
              old(server.protocol.requestHandlers) + [ToolsListHandler(registry), ToolsCallHandler(registry, jsonEncode)]
    ensures server.notificationHandlers == old(server.notificationHandlers)
    ensures server.protocol.notificationHandlers == old(server.protocol.notificationHandlers)
    ensures server.protocol.pendingRequests == old(server.protocol.pendingRequests)
  {
    server.RegisterRequestHandler(ToolsListHandler(registry));
    server.RegisterRequestHandler(ToolsCallHandler(registry, jsonEncode));
  }

  /** The five resource handlers in the order `setupResourceFeature` registers them. */
  function ResourceHandlers(p: InMemoryResourceProvider, s: Session.Session): (r: seq<RequestHandler>)
    ensures |r| == 5
    ensures forall i :: 0 <= i < 5 ==> r[i].CanHandle(ResourceMethods()[i])
  {
    [ResourceListHandler(p), ResourceReadHandler(p), ResourceTemplatesListHandler(p),
     ResourceSubscribeHandler(p, s), ResourceUnsubscribeHandler(p, s)]
  }

  function ResourceMethods(): seq<string> {
    [RESOURCES_LIST, RESOURCES_READ, RESOURCES_TEMPLATES_LIST, RESOURCES_SUBSCRIBE, RESOURCES_UNSUBSCRIBE]
  }

  lemma AppendKeepsEnd<T>(t: seq<T>, s: seq<T>, x: T)
    requires EndsWith(t, s)
    ensures EndsWith(t + [x], s + [x])
  {
    assert (t + [x])[|t + [x]| - |s + [x]|..] == t[|t| - |s|..] + [x];
  }
}
