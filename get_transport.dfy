/** `getTransport` (src/proxy/getTransport.ts): the transport factory the connection path
    uses. An http or sse entry shares one callback listener per process, the module
    variable `server`, set on first use by `??=` and never reset. A listener is its
    port; the port `setupCallbackServer` gets is the parameter `chosen`. */
module GetTransport {
  import opened Wrappers
  import opened Schema
  import opened AuthStore
  import opened OAuthProvider
  import opened Transports
  import opened LockAuthServer

  /** The module state of src/proxy/getTransport.ts. */
  class Listeners {
    /** `server`, as the port it listens on. */
    var server: Option<Port>
    var serversCreated: nat

    /** At most one listener exists, and it is the one in `server`. */
    predicate Valid()
      reads this
    {
      serversCreated == if server.Some? then 1 else 0
    }

    constructor()
      ensures server == None && serversCreated == 0 && Valid()
    {
      server := None;
      serversCreated := 0;
    }

    /** An http or sse entry gets a provider on the shared listener's port, which is set
        up only if none exists yet; the headers carry the bearer token stored for the
        provider, and the completion callback is installed. */
    method GetStreamTransport(store: Store, config: McpServerConfig, chosen: Port,
                              uuid: string, version: string, hostOf: string -> string)
      returns (t: Transport, provider: Provider)
      requires Valid() && !config.Stdio?
      modifies this
      ensures Valid()
      ensures server == if old(server).Some? then old(server) else Some(chosen)
      ensures fresh(provider) && provider.store == store && provider.callbackPort == server.value
      ensures provider.remoteMcpServerUrl == config.url && provider.authorizeResource == None
      ensures provider.hasAwaitAuthCompleted
      ensures t == TransportFor(config, if store.Stored(CallbackHost, Kind.Tokens).Some?
                                        then Some(store.Stored(CallbackHost, Kind.Tokens).value.tokens) else None)
    {
      if server.None? {
        server := Some(chosen);
        serversCreated := serversCreated + 1;
      }
      provider := new Provider.Create(store, config.url, None, server.value, uuid, version, hostOf);
      var tokens := provider.Tokens();
      t := TransportFor(config, tokens);
      provider.SetAwaitAuthCompleted();
    }
  }

  /** `getTransport`: a stdio entry gets its stdio transport without the listener being
      touched. */
  method GetTransport(listeners: Listeners, store: Store, config: McpServerConfig, chosen: Port,
                      uuid: string, version: string, hostOf: string -> string)
    returns (t: Transport, provider: Option<Provider>)
    requires listeners.Valid()
    modifies listeners
    ensures listeners.Valid()
    ensures config.Stdio? ==> t == TransportFor(config, None) && provider == None && listeners.server == old(listeners.server)
    ensures !config.Stdio? ==>
      listeners.server == (if old(listeners.server).Some? then old(listeners.server) else Some(chosen)) &&
      provider.Some? && provider.value.callbackPort == listeners.server.value
  {
    if config.Stdio? {
      return StdioTransport(config.command, config.args, config.env), None;
    }
    var p;
    t, p := listeners.GetStreamTransport(store, config, chosen, uuid, version, hostOf);
    provider := Some(p);
  }

  /** The completion callback installed by `getTransport`, run by the provider once the
      lock's wait has ended: the shared listener's code is awaited (`code` is what the
      wait gave) and exactly that code goes to `finishAuth`, whose outcome is `finish`;
      the shared listener is kept. A failed wait or a failed `finishAuth` reaches the
      provider as a failed completion, which propagates and leaves the lock held. */
  method CompleteAuthorization(provider: Provider, lock: Lock, ticket: nat, browser: Outcome<string>,
                               code: Result<string, string>, finish: Outcome<string>)
    returns (r: Outcome<string>, finished: Option<string>)
    requires lock.Valid() && lock.Ready(ticket) && provider.hasAwaitAuthCompleted
    modifies lock
    ensures lock.Valid()
    ensures finished == if code.Ok? then Some(code.value) else None
    ensures code.Err? ==> r == Fail(code.error)
    ensures code.Ok? ==> r == finish
    ensures r.Fail? ==> lock.queue == old(lock.queue) && lock.released == old(lock.released)
    ensures r.Pass? ==> lock.queue == Without(old(lock.queue), ticket) && lock.released == old(lock.released) + {ticket}
  {
    var completion: Outcome<string>;
    if code.Err? {
      completion, finished := Fail(code.error), None;
    } else {
      completion, finished := finish, Some(code.value);
    }
    r := provider.FinishAuthorization(lock, ticket, browser, completion);
  }

  /** Two remote servers connected one after the other share one listener, and both
      providers redirect to the same URL. */
  method TwoServersShareListener(store: Store, first: McpServerConfig, second: McpServerConfig,
                                 p1: Port, p2: Port, hostOf: string -> string)
    returns (a: Provider, b: Provider, listeners: Listeners)
    requires !first.Stdio? && !second.Stdio?
    ensures listeners.serversCreated == 1 && listeners.server == Some(p1)
    ensures a.callbackPort == b.callbackPort == p1
    ensures RedirectUrl(a.callbackPort) == RedirectUrl(b.callbackPort)
  {
    listeners := new Listeners();
    var _, x := listeners.GetStreamTransport(store, first, p1, "first-state", "", hostOf);
    var _, y := listeners.GetStreamTransport(store, second, p2, "second-state", "", hostOf);
    a, b := x, y;
  }
}
