/** `createTransport` (src/proxy/createTransport.ts). For an http or sse entry it keeps a
    lazily created callback listener in its closure (`callbackServer`, with the port it
    listens on in `callbackPort`), persists the listener's port under the server url,
    and invalidates the url's credentials when the port moved.

    The store as written has no file for `callback-port` (src/auth/AuthStore.ts), so
    reading the port always gives nothing and saving it always raises `Invalid kind`:
    the `*AsWritten` members follow that code path. The other members use a store that
    keeps the port in a file of its own (`AuthStore.Store.SaveCallbackPort`), which is
    what the rest of the function is written for. A listener is its port; `get-port`'s
    choice is the parameter `chosen`. */
module CreateTransport {
  import opened Wrappers
  import opened Schema
  import opened AuthStore
  import opened OAuthProvider
  import opened Transports

  /** The preferred port of a new listener: the slot's `callbackPort`, else the persisted
      one. */
  function DefaultPort(callbackPort: Option<Port>, files: Files, dir: string): (p: Option<Port>)
    ensures callbackPort.Some? ==> p == callbackPort
    ensures callbackPort.None? ==> p == StoredPort(files, dir)
  {
    if callbackPort.Some? then callbackPort else StoredPort(files, dir)
  }

  /** The port in what `getPersistenceFile(url, "callback-port")` returned. */
  function PortIn(stored: Option<Artifact>): (p: Option<Port>)
    ensures p.Some? <==> stored.Some? && stored.value.PortFile?
  {
    match stored
    case Some(PortFile(port)) => Some(port)
    case _ => None
  }

  /** The credential files of `dir`. */
  function Credentials(dir: string): set<(string, FileName)> {
    {(dir, ClientJson), (dir, TokensJson), (dir, VerifierTxt)}
  }

  /** The files after a new listener on `chosen`: nothing is written when it got the
      preferred port; otherwise the port is persisted, and when a persisted port
      existed and differs, the credentials of the url's directory go too (a missing one
      is no error). */
  function AfterNewListener(files: Files, dir: string, preferred: Option<Port>, persisted: Option<Port>, chosen: Port): Files {
    if preferred == Some(chosen) then files
    else
      var saved := files[(dir, PortTxt) := Written(PortFile(chosen))];
      if persisted.Some? && persisted.value != chosen then saved - Credentials(dir) else saved
  }

  /** The port is persisted iff the listener did not get the preferred port; the
      credentials are dropped iff, in addition, a persisted port existed and differs. */
  lemma NewListenerPersistence(files: Files, dir: string, preferred: Option<Port>, persisted: Option<Port>, chosen: Port)
    ensures preferred == Some(chosen) ==> AfterNewListener(files, dir, preferred, persisted, chosen) == files
    ensures preferred != Some(chosen) ==> StoredPort(AfterNewListener(files, dir, preferred, persisted, chosen), dir) == Some(chosen)
    ensures forall k :: k != CallbackPort ==>
      (ReadFile(AfterNewListener(files, dir, preferred, persisted, chosen), dir, k) ==
         if preferred != Some(chosen) && persisted.Some? && persisted.value != chosen then None
         else ReadFile(files, dir, k))
  {
    if preferred != Some(chosen) {
      SavePortThenRead(files, dir, chosen);
    }
  }

  /** The invalidation removes files under the server url's key only; the provider keeps
      its credentials under the key of "localhost", so unless the two keys coincide the
      provider's registration and tokens survive a port change. */
  lemma InvalidationMissesProviderFiles(files: Files, dir: string, providerDir: string,
                                         preferred: Option<Port>, persisted: Option<Port>, chosen: Port, k: Kind)
    requires dir != providerDir
    ensures ReadFile(AfterNewListener(files, dir, preferred, persisted, chosen), providerDir, k) == ReadFile(files, providerDir, k)
  {
  }

  /** One deletion of a `Promise.all`, whether it removed the file or raised because the
      file was missing, extends the set of removed locations by one. */
  lemma DropOne(files: Files, gone: set<(string, FileName)>, loc: (string, FileName), after: Files)
    requires after == (files - gone) - {loc} || (loc !in files - gone && after == files - gone)
    ensures after == files - (gone + {loc})
  {
  }

  /** The closure state of one `createTransport` call for an http or sse entry. */
  class Slot {
    const store: Store
    const url: string
    /** The port read once at the start of `createTransport`. */
    const persistedPort: Option<Port>
    var callbackPort: Option<Port>
    /** `callbackServer`, as the port it listens on. */
    var listener: Option<Port>
    var listenersCreated: nat

    constructor(store: Store, url: string, persistedPort: Option<Port>)
      ensures this.store == store && this.url == url && this.persistedPort == persistedPort
      ensures callbackPort == persistedPort && listener == None && listenersCreated == 0
    {
      this.store := store;
      this.url := url;
      this.persistedPort := persistedPort;
      callbackPort := persistedPort;
      listener := None;
      listenersCreated := 0;
    }

    /** `ensureCallbackServer`: the cached listener when there is one, with nothing else
        done; otherwise a new listener on `chosen`, whose port becomes `callbackPort`,
        followed by the persistence rule of `AfterNewListener`. */
    method EnsureCallbackServer(chosen: Port) returns (port: Port)
      modifies this, store
      ensures store.dirs >= old(store.dirs)
      ensures old(listener).Some? ==>
        port == old(listener).value && listener == old(listener) && callbackPort == old(callbackPort) &&
        listenersCreated == old(listenersCreated) && store.files == old(store.files)
      ensures old(listener).None? ==>
        port == chosen && listener == Some(chosen) && callbackPort == Some(chosen) &&
        listenersCreated == old(listenersCreated) + 1 &&
        store.files == AfterNewListener(old(store.files), store.keyOf(url),
                                        DefaultPort(old(callbackPort), old(store.files), store.keyOf(url)),
                                        persistedPort, chosen)
    {
      if listener.Some? {
        return listener.value;
      }
      var preferred := callbackPort;
      if preferred.None? {
        preferred := store.GetCallbackPort(url);
      }
      listener := Some(chosen);
      listenersCreated := listenersCreated + 1;
      callbackPort := Some(chosen);
      PersistNewPort(preferred, chosen);
      return chosen;
    }

    /** The part of `ensureCallbackServer` after the listener is up. */
    method PersistNewPort(preferred: Option<Port>, chosen: Port)
      modifies store
      ensures store.dirs >= old(store.dirs)
      ensures store.files == AfterNewListener(old(store.files), store.keyOf(url), preferred, persistedPort, chosen)
    {
      if preferred != Some(chosen) {
        store.SaveCallbackPort(url, chosen);
        if persistedPort.Some? && persistedPort.value != chosen {
          ghost var dir, saved := store.keyOf(url), store.files;
          // `Promise.all` of three deletions, each with its error caught.
          ghost var none: set<(string, FileName)> := {};
          assert saved == saved - none;
          var _ := store.DeletePersistenceFile(url, Client);
          DropOne(saved, none, (dir, ClientJson), store.files);
          ghost var one := none + {(dir, ClientJson)};
          var _ := store.DeletePersistenceFile(url, Kind.Tokens);
          DropOne(saved, one, (dir, TokensJson), store.files);
          ghost var two := one + {(dir, TokensJson)};
          var _ := store.DeletePersistenceFile(url, Verifier);
          DropOne(saved, two, (dir, VerifierTxt), store.files);
          assert two + {(dir, VerifierTxt)} == Credentials(dir);
        }
      }
    }

    /** `ensureCallbackServer` over the store as written: a new listener is set up before
        the save of `callback-port`, which raises unless the listener got the preferred
        port; nothing after the save runs. */
    method EnsureCallbackServerAsWritten(chosen: Port) returns (r: Result<Port, StoreError>)
      modifies this, store
      ensures store.files == old(store.files)
      ensures old(listener).Some? ==>
        r == Ok(old(listener).value) && listener == old(listener) && callbackPort == old(callbackPort) &&
        listenersCreated == old(listenersCreated)
      ensures old(listener).None? ==>
        listener == Some(chosen) && callbackPort == Some(chosen) && listenersCreated == old(listenersCreated) + 1 &&
        r == if old(callbackPort) == Some(chosen) then Ok(chosen) else Err(InvalidKind(CallbackPort))
    {
      if listener.Some? {
        return Ok(listener.value);
      }
      var preferred := callbackPort;
      if preferred.None? {
        var stored := store.GetPersistenceFile(url, CallbackPort);
        preferred := PortIn(stored);
      }
      listener := Some(chosen);
      listenersCreated := listenersCreated + 1;
      callbackPort := Some(chosen);
      if preferred != Some(chosen) {
        var saved := store.SavePersistenceFile(url, CallbackPort, PortFile(chosen));
        if saved.Fail? {
          return Err(saved.error);
        }
      }
      return Ok(chosen);
    }

    /** The completion callback: ensure a listener, await its code (`code` is what the
        wait gave), hand exactly that code to `finishAuth` (whose outcome is `finish`),
        and drop the cached listener whatever happened. */
    method Complete(chosen: Port, code: Result<string, string>, finish: Outcome<string>)
      returns (r: Outcome<string>, finished: Option<string>)
      modifies this, store
      ensures listener == None
      ensures store.dirs >= old(store.dirs)
      ensures old(listener).Some? ==>
        callbackPort == old(callbackPort) && listenersCreated == old(listenersCreated) && store.files == old(store.files)
      ensures old(listener).None? ==>
        callbackPort == Some(chosen) && listenersCreated == old(listenersCreated) + 1 &&
        store.files == AfterNewListener(old(store.files), store.keyOf(url),
                                        DefaultPort(old(callbackPort), old(store.files), store.keyOf(url)),
                                        persistedPort, chosen)
      ensures finished == if code.Ok? then Some(code.value) else None
      ensures code.Err? ==> r == Fail(code.error)
      ensures code.Ok? ==> r == finish
    {
      var _ := EnsureCallbackServer(chosen);
      if code.Err? {
        r, finished := Fail(code.error), None;
      } else {
        r, finished := finish, Some(code.value);
      }
      listener := None;
    }
  }

  /** The transport of a stdio entry: nothing is read, created or written. */
  function StdioTransportFor(config: McpServerConfig): (t: Transport)
    requires config.Stdio?
    ensures t == TransportFor(config, None)
  {
    StdioTransport(config.command, config.args, config.env)
  }

  /** `createTransport` with the port kept in the corrected store. An http or sse entry
      gets a provider on the persisted port, or on a new listener's port when none is
      persisted (the listener is then created at once); its headers carry the bearer
      token stored at that point, and the completion callback is installed. */
  method CreateStreamTransport(store: Store, config: McpServerConfig, chosen: Port,
                               uuid: string, version: string, hostOf: string -> string)
    returns (t: Transport, slot: Slot, provider: Provider)
    requires !config.Stdio?
    modifies store
    ensures fresh(slot) && fresh(provider) && slot.store == store && provider.store == store
    ensures slot.url == config.url && slot.persistedPort == StoredPort(old(store.files), store.keyOf(config.url))
    ensures slot.persistedPort.Some? ==>
      provider.callbackPort == slot.persistedPort.value && slot.listenersCreated == 0 && store.files == old(store.files)
    ensures slot.persistedPort.None? ==>
      provider.callbackPort == chosen && slot.listener == Some(chosen) && slot.listenersCreated == 1 &&
      store.files == AfterNewListener(old(store.files), store.keyOf(config.url), None, None, chosen)
    ensures provider.remoteMcpServerUrl == config.url && provider.authorizeResource == None
    ensures provider.hasAwaitAuthCompleted
    ensures t == TransportFor(config, if store.Stored(CallbackHost, Kind.Tokens).Some?
                                      then Some(store.Stored(CallbackHost, Kind.Tokens).value.tokens) else None)
  {
    var persisted := store.GetCallbackPort(config.url);
    slot := new Slot(store, config.url, persisted);
    var selected: Port;
    if persisted.Some? {
      selected := persisted.value;
    } else {
      selected := slot.EnsureCallbackServer(chosen);
    }
    provider := new Provider.Create(store, config.url, None, selected, uuid, version, hostOf);
    var tokens := provider.Tokens();
    t := TransportFor(config, tokens);
    provider.SetAwaitAuthCompleted();
  }

  /** `createTransport` for an http or sse entry over the store as written: the persisted
      port never reads back, so a listener is set up at once and the save of its port
      raises `Invalid kind`; the call fails every time and leaves that listener
      cached and open. */
  method CreateStreamTransportAsWritten(store: Store, config: McpServerConfig, chosen: Port)
    returns (r: Result<Transport, StoreError>, slot: Slot)
    requires !config.Stdio?
    modifies store
    ensures r == Err(InvalidKind(CallbackPort))
    ensures fresh(slot) && slot.listener == Some(chosen) && slot.listenersCreated == 1
    ensures store.files == old(store.files)
  {
    var stored := store.GetPersistenceFile(config.url, CallbackPort);
    var persisted := PortIn(stored);
    slot := new Slot(store, config.url, persisted);
    if persisted.Some? {
      return Ok(TransportFor(config, None)), slot;
    }
    var port := slot.EnsureCallbackServerAsWritten(chosen);
    if port.Err? {
      return Err(port.error), slot;
    }
    return Ok(TransportFor(config, None)), slot;
  }
}
