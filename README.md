# modular-mcp, modelled in Dafny

modular-mcp is an MCP server that stands in front of several upstream MCP servers and
presents them as named *groups*. It advertises only two tools: `get-modular-tools`
lists the tools of one group, and `call-modular-tool` forwards a call to one of them.
This keeps the client's context small, because an upstream server's tool descriptions
are fetched only when a group is asked for.

This project models and proves properties of the logic under that server:

- **Configuration.** `${NAME}`/`$NAME` environment substitution (`EnvSubstitution`),
  the per-transport substitution of a loaded configuration (`LoadConfig`), the two
  configuration schemas (`Schema` for stdio/http/sse entries, `LegacyTypes` for the
  older stdio-only one) and the `migrate` command, which rewrites a plain MCP
  configuration into a modular one (`Migrate`).
- **OAuth for remote servers.** The credential store (`AuthStore`). The OAuth client
  provider (`OAuthProvider`) follows the authorization code grant of section 4.1 of
  RFC 6749, PKCE (RFC 7636), dynamic client registration metadata (section 2 of
  RFC 7591) and resource indicators (section 2 of RFC 8707). It redirects to a loopback
  listener named by the host name `localhost`. Section 7.3 of RFC 8252 asks for an IP
  literal, and section 8.3 calls `localhost` NOT RECOMMENDED. Around them sit the process-wide authorization lock
  (`LockAuthServer`), the settle-able promise cell (`ControllablePromise`) and the
  callback listener's lifecycle (`CallbackServer`).
- **Transports.** Transport construction with the bearer header of section 2.1 of
  RFC 6750 (`Transports`). The callback-port selection and credential invalidation of
  `createTransport` (`CreateTransport`). The process-wide listener of `getTransport`
  (`GetTransport`). The retry on `Unauthorized` (`ConnectWithAuthentication`).
- **Groups.** The two group orchestrators `ModularMcpClient` (`ProxyClient`) and
  `ClientManager` (`ClientManager`), with what they share in `Groups`, and the two
  request handlers and the start-up sweep of the server (`Server`).

`Wrappers` holds `Option`, `Result` and `Outcome`. `Json` holds a JSON value datatype
and the object operations the code relies on.

How the model is built:

- **JSON objects.** An object is a sequence of name/value pairs in insertion order.
  - Assignment replaces a present name in place, or appends a new one.
  - Lookup finds the first match.
  - Spread and rest destructuring are built from those two.
  - A JavaScript `Map` is modelled the same way.
- **Oracles.** Everything the code cannot decide by itself enters as a parameter:
  - the outcomes of SDK calls (`connect`, `listTools`, `callTool`, `close`, `finishAuth`);
  - the port `get-port` picks;
  - the random `state`;
  - md5 of a url and the host of a URL, which are uninterpreted functions;
  - the answers typed at a prompt, `path.resolve`, and whether a file read, a parse or a
    write succeeds.
- **Files.** The file system under the credential store is a map from directory and
  file name to content.
- **State.** Code that updates state in place becomes classes:
  - the store, the provider, the lock queue, the promise cell, the callback listener,
    `createTransport`'s closure, `getTransport`'s module variable and both orchestrators.
  - Each loop of the source becomes a `while` loop proved against a recursive reference
    function.

## Model

| member | source | states |
|---|---|---|
| AuthStore.FileOf | src/auth/AuthStore.ts:30-56 | `client`, `tokens` and `verifier` each have a file of their own; exactly `callback-port` has none and reaches `Invalid kind` |
| AuthStore.ReadFile | src/auth/AuthStore.ts:20-60 | a read yields content only when the kind's file exists in the url's directory and holds content of that kind, and then exactly that content; `callback-port` never reads |
| AuthStore.SaveThenRead | src/auth/AuthStore.ts:62-101 | saving a kind, then reading it back under the same directory, gives the saved content; every other directory and kind reads as before |
| AuthStore.LastSaveWins | src/auth/AuthStore.ts:76-101 | a save overwrites the whole file, so two saves of a kind leave the files of the second alone |
| AuthStore.DeleteThenRead | src/auth/AuthStore.ts:107-129 | after a delete the kind reads as absent, and every other directory and kind reads as before |
| AuthStore.CallbackPortNeverRead | src/auth/AuthStore.ts:55-59 | `callback-port` reads as absent whatever the directory holds (the `Invalid kind` error is caught) |
| AuthStore.StoredPort | src/proxy/createTransport.ts:29-32 | corrected store: the port read back is the one the port file of the directory holds |
| AuthStore.SavePortThenRead | src/proxy/createTransport.ts:51-56 | corrected store: a saved port reads back, and no credential kind's read changes |
| AuthStore.Store.SameKeySameFiles | src/auth/AuthStore.ts:25-28 | the file read depends on the url only through its md5 digest |
| AuthStore.Store.GetPersistenceFile | src/auth/AuthStore.ts:20-60 | returns exactly `ReadFile` of the current files under the url's digest |
| AuthStore.Store.SavePersistenceFile | src/auth/AuthStore.ts:62-105 | the url's directory exists afterwards; a handled kind is written (`Saved`); `callback-port` raises `Invalid kind` after the directory is created and writes nothing; every file stays inside an existing directory |
| AuthStore.Store.GetCallbackPort | src/proxy/createTransport.ts:29-32 | corrected store: returns `StoredPort` of the url's directory |
| AuthStore.Store.SaveCallbackPort | src/proxy/createTransport.ts:52-56 | corrected store: creates the directory if missing and writes the port file, nothing else; every file stays inside an existing directory |
| AuthStore.Store.DeletePersistenceFile | src/auth/AuthStore.ts:107-133 | deletes only the kind's file; a missing file raises (no `force`) and changes nothing; `callback-port` raises `Invalid kind`; directories stay, so every file stays inside an existing directory |
| OAuthProvider.RedirectUrl | src/auth/ProxyOAuthClientProvider.ts:56-85 | the redirect is `http://localhost:<port>/oauth/callback`, without `:80` for the default port |
| OAuthProvider.RedirectUrlInjective | src/auth/ProxyOAuthClientProvider.ts:80-85 | different callback ports give different redirect URLs |
| OAuthProvider.ClientMetadataFor | src/auth/ProxyOAuthClientProvider.ts:49-98 | the metadata fields: one redirect URI, auth method `none`, the two grants, response type `code`, name, URI, software id and version |
| OAuthProvider.FreshRegistration | src/auth/ProxyOAuthClientProvider.ts:104-116 | a stored registration is returned iff it is a client registration whose first redirect URI is the current redirect URL, and then unchanged |
| OAuthProvider.RegistrationFollowsPort | src/auth/ProxyOAuthClientProvider.ts:110-113 | a registration made with the advertised metadata is reused iff the callback port is unchanged |
| OAuthProvider.Targets | src/auth/ProxyOAuthClientProvider.ts:226-255 | a credential file of the directory is targeted iff the scope selects its kind; no file of another directory is |
| OAuthProvider.ScopeSelection | src/auth/ProxyOAuthClientProvider.ts:226-255 | `all` targets the three files; each single scope targets its own file only |
| OAuthProvider.WithParam | src/auth/ProxyOAuthClientProvider.ts:146-151 | `searchParams.set`: afterwards the name looks up to the value, every other pair is kept in order, and the name occurs once |
| OAuthProvider.Others | src/auth/ProxyOAuthClientProvider.ts:146-151 | the pairs with other names: the name is absent, and nothing changes when it was absent |
| OAuthProvider.AuthorizationUrl.SetParam | src/auth/ProxyOAuthClientProvider.ts:147-150 | the URL's parameters become `WithParam` of the old ones |
| OAuthProvider.Provider.Create | src/auth/ProxyOAuthClientProvider.ts:38-73 | the provider keeps the url, resource, callback port, the drawn UUID as its state and the version; no completion callback yet |
| OAuthProvider.Provider.SetAwaitAuthCompleted | src/auth/ProxyOAuthClientProvider.ts:75-77 | a completion callback is installed |
| OAuthProvider.Provider.ClientInformation | src/auth/ProxyOAuthClientProvider.ts:104-116 | returns `FreshRegistration` of what the store holds under `localhost` |
| OAuthProvider.Provider.SaveClientInformation | src/auth/ProxyOAuthClientProvider.ts:118-126 | the registration is saved under `localhost` |
| OAuthProvider.Provider.Tokens | src/auth/ProxyOAuthClientProvider.ts:128-135 | returns tokens iff the store holds tokens under `localhost`, and then those |
| OAuthProvider.Provider.SaveTokens | src/auth/ProxyOAuthClientProvider.ts:137-143 | the tokens are saved under `localhost` |
| OAuthProvider.Provider.SaveCodeVerifier | src/auth/ProxyOAuthClientProvider.ts:169-175 | the verifier is saved under `localhost` |
| OAuthProvider.Provider.CodeVerifier | src/auth/ProxyOAuthClientProvider.ts:177-186 | fails with `Code verifier not found` iff no verifier is stored, otherwise returns the stored one |
| OAuthProvider.Provider.ValidateResourceUrl | src/auth/ProxyOAuthClientProvider.ts:198-224 | accepts iff the resource is the configured one (or none is configured) and the URL's host is the remote server's host; an accepted URL comes back unchanged |
| OAuthProvider.Provider.RemoteUrlAccepted | src/auth/ProxyOAuthClientProvider.ts:198-224 | the remote server's own URL is accepted with an allowed resource |
| OAuthProvider.Provider.DeleteIfSelected | src/auth/ProxyOAuthClientProvider.ts:229-253 | one branch of the `Promise.all`: a selected kind's file is deleted and the branch fails iff it was absent; an unselected kind is untouched |
| OAuthProvider.Provider.InvalidateCredentials | src/auth/ProxyOAuthClientProvider.ts:226-255 | removes exactly the targeted files; fails iff a targeted file was absent, naming one of those; every selected deletion runs |
| OAuthProvider.Provider.BeginAuthorization | src/auth/ProxyOAuthClientProvider.ts:145-153 | sets `resource` iff one is configured, then joins the lock's queue at its end |
| OAuthProvider.Provider.FinishAuthorization | src/auth/ProxyOAuthClientProvider.ts:155-166 | a browser failure is ignored; the completion callback's outcome propagates; the lock is released unless that callback failed |
| LockAuthServer.Without | src/auth/lockAuthServer.ts:13-16 | a ticket not in the queue leaves it unchanged (`indexOf` gives -1); a queued one shortens it by one |
| LockAuthServer.IndexOf | src/auth/lockAuthServer.ts:13 | `indexOf` of a queued ticket: its first position |
| LockAuthServer.WithoutSplices | src/auth/lockAuthServer.ts:13-16 | removal is `splice(indexOf(t), 1)`: the tickets before and after stay, in order |
| LockAuthServer.Lock.OnlyHeadReady | src/auth/lockAuthServer.ts:19-24 | in a valid queue exactly the head may proceed |
| LockAuthServer.Lock.Acquire | src/auth/lockAuthServer.ts:8-24 | pushes a fresh ticket that waits on the previous last one; it may proceed at once iff the queue was empty; the chain invariant is kept |
| LockAuthServer.Lock.Release | src/auth/lockAuthServer.ts:10-17 | resolves the ticket and splices it out; other tickets keep their order; the chain invariant is kept |
| LockAuthServer.Lock.ReleaseReady | src/auth/lockAuthServer.ts:8-28 | whichever ticket the lock lets proceed is the head of the queue; releasing it leaves the rest of the queue in order, with the chain invariant kept |
| LockAuthServer.AcquireInTurn | src/auth/lockAuthServer.test.ts:14-26 | `n` acquires queue tickets 0..n-1 in call order, none released |
| LockAuthServer.ServeInOrder | src/auth/lockAuthServer.test.ts:14-38 | while callers wait, the one served is whichever queued ticket the lock reports ready, and it releases at once; the tickets served are exactly 0, 1, ..., n - 1, in call order |
| ControllablePromise.Step | src/utils/controllablePromise.ts:17-24 | a settle call always overwrites `status`, and never changes a promise that has settled |
| ControllablePromise.FirstCallDecidesLastCallShows | src/utils/controllablePromise.ts:16-25 | after any calls the awaited outcome is the first call's, `status` shows the last call, and `pending` means unsettled |
| ControllablePromise.Cell.Resolve | src/utils/controllablePromise.ts:17-20 | the cell's state becomes `Step` of the old state with the resolve call; `pending` still means unsettled |
| ControllablePromise.Cell.Reject | src/utils/controllablePromise.ts:21-24 | the same for reject |
| ControllablePromise.ResolveThenReject | src/utils/controllablePromise.ts:17-24 | reject after resolve shows `rejected` while awaiting yields the resolved value |
| CallbackServer.TimeoutOf | src/auth/setupCallbackServer.ts:9-16 | an absent timeout becomes 300000 ms; a given one is kept |
| CallbackServer.Listener.Setup | src/auth/setupCallbackServer.ts:15-104 | a new listener is on the chosen port with a pending cell, the server open, the handlers installed and no timer |
| CallbackServer.Listener.CleanUp | src/auth/setupCallbackServer.ts:59-67 | the first call disarms the timer, closes the server once and installs a fresh pending cell; later calls change nothing |
| CallbackServer.Listener.OnTimeout | src/auth/setupCallbackServer.ts:69-82 | a settled cell is left alone; a pending one is rejected with the timeout message and the listener cleans up |
| CallbackServer.Listener.StartTimeout | src/auth/setupCallbackServer.ts:84-90 | arms the timer and changes nothing else |
| CallbackServer.Listener.HandleCallback | src/auth/setupCallbackServer.ts:26-43 | without a `code` the reply is 400 and the cell is untouched; with one the current cell is resolved with it and the success text is sent |
| CallbackServer.Listener.BeginAwait | src/auth/setupCallbackServer.ts:106-109 | arms the timer and awaits the current cell |
| CallbackServer.Listener.FinishAwait | src/auth/setupCallbackServer.ts:108-117 | a received code is returned after a cleanup, which (unless one already ran) closes the server and installs a fresh pending cell; a rejection propagates and leaves the cell and server alone; on both paths the timer is off, the handlers removed and the listener marked cleaned up |
| CallbackServer.RedirectInTime | src/auth/setupCallbackServer.ts:26-117 | a redirect before the timeout gives back its code and closes the server exactly once |
| CallbackServer.RedirectTooLate | src/auth/setupCallbackServer.ts:59-117 | after the timeout the wait fails with the timeout message; a late redirect settles only the replacement cell |
| Transports.BearerHeaders | src/proxy/createTransport.ts:86-90 | without tokens the configured headers are kept as they are; with tokens `Authorization` is `Bearer <access token>`, every other header is the configured one, and the names are the configured ones plus `Authorization` |
| Transports.BearerHeadersOrder | src/proxy/createTransport.ts:87-90 | the spread keeps the configured names in order; the bearer header takes a configured `Authorization` slot or comes last |
| Transports.TransportFor | src/proxy/createTransport.ts:19-142 | a stdio entry gets a stdio transport of its command, args and env; http a streamable HTTP transport and sse an SSE transport on the entry's url with the merged headers |
| CreateTransport.DefaultPort | src/proxy/createTransport.ts:43-45 | the listener's preferred port is the closure's `callbackPort`, else the persisted one |
| CreateTransport.PortIn | src/proxy/createTransport.ts:29-34 | a port is found iff the store returned a port file |
| CreateTransport.NewListenerPersistence | src/proxy/createTransport.ts:51-73 | with the preferred port nothing is written; otherwise the port is persisted, and the three credential kinds read as absent iff a persisted port existed and differs, as before otherwise |
| CreateTransport.InvalidationMissesProviderFiles | src/proxy/createTransport.ts:61-71 | the invalidation touches only the server url's directory, so the provider's files (kept under `localhost`) survive it when the digests differ |
| CreateTransport.Slot.EnsureCallbackServer | src/proxy/createTransport.ts:39-75 | a cached listener is returned with nothing changed; otherwise a new listener on the chosen port is cached, becomes `callbackPort`, and the files follow `NewListenerPersistence` (corrected store) |
| CreateTransport.Slot.PersistNewPort | src/proxy/createTransport.ts:51-73 | the store's files become `AfterNewListener` of the old ones; directories only grow |
| CreateTransport.Slot.EnsureCallbackServerAsWritten | src/proxy/createTransport.ts:39-56 | store as written: a new listener is cached first, then the save of `callback-port` raises `Invalid kind` unless the listener got the closure's port; no file changes |
| CreateTransport.Slot.Complete | src/proxy/createTransport.ts:101-139 | the completion callback hands exactly the awaited code to `finishAuth`, propagates a failed wait, and clears the cached listener in every case. Its listener step is `ensureCallbackServer`'s. With a listener cached, the store, the port and the listener count are unchanged. Without one, a listener on the chosen port is created and becomes `callbackPort`, and the files follow `AfterNewListener` |
| CreateTransport.StdioTransportFor | src/proxy/createTransport.ts:19-27 | a stdio entry gets its stdio transport without touching the store |
| CreateTransport.CreateStreamTransport | src/proxy/createTransport.ts:29-142 | corrected store: the provider is on the persisted port with no listener and no write, or, with none persisted, on a new listener whose port is persisted; the headers carry the stored bearer token; the callback is installed |
| CreateTransport.CreateStreamTransportAsWritten | src/proxy/createTransport.ts:29-78 | store as written: every http or sse call fails with `Invalid kind`, leaving one listener cached and the files unchanged |
| GetTransport.Listeners.GetStreamTransport | src/proxy/getTransport.ts:21-76 | the shared listener is created only when none exists; the provider uses its port with no resource; the headers carry the stored bearer token; the callback is installed |
| GetTransport.GetTransport | src/proxy/getTransport.ts:10-82 | a stdio entry gets its stdio transport and leaves the listener alone; a remote entry gets a provider on the shared listener's port |
| GetTransport.CompleteAuthorization | src/proxy/getTransport.ts:45-73 | run by the provider after the lock's wait: exactly the awaited code goes to `finishAuth`; a failed wait or a failed `finishAuth` propagates and leaves the lock held; only a completed callback releases the ticket, with the rest of the queue kept in order |
| GetTransport.TwoServersShareListener | src/proxy/getTransport.ts:8-28 | two remote servers share one listener, and their providers redirect to the same URL |
| ConnectWithAuthentication.Connect | src/proxy/connectWithAuthentication.ts:5-39 | a run makes at most one attempt per outcome; a stdio entry stops after its first attempt; a remote entry stops at the first outcome other than the `Error` `Unauthorized`, returning on success and rethrowing the thrown value unchanged otherwise |
| ConnectWithAuthentication.FirstStop | src/proxy/connectWithAuthentication.ts:17-24 | the first outcome that is not retried, or the end |
| ConnectWithAuthentication.RetriedBeforeFirstStop | src/proxy/connectWithAuthentication.ts:17-37 | every outcome before that one is an `Unauthorized` `Error` |
| ConnectWithAuthentication.RemoteRunStopsAtFirstStop | src/proxy/connectWithAuthentication.ts:15-38 | a remote run is decided by its first outcome that is not retried: success returns, any other throw (a non-`Error` value included) propagates, with one attempt per outcome up to it |
| ConnectWithAuthentication.Unauthorized | src/proxy/connectWithAuthentication.ts:22 | `n` `Unauthorized` throws |
| ConnectWithAuthentication.RetryThenStop | src/proxy/connectWithAuthentication.ts:15-38 | after `n` `Unauthorized` failures the retries go on, without a bound, to the next outcome, which decides the run after `n + 1` attempts |
| ConnectWithAuthentication.StdioSingleAttempt | src/proxy/connectWithAuthentication.ts:9-13 | a stdio entry makes one attempt and never retries, even on `Unauthorized` |
| Schema.StringListOf | src/config/schema.ts:9 | `v.array(v.string())` accepts exactly an array of strings |
| Schema.StringMapOf | src/config/schema.ts:10-17 | `v.record(v.string(), v.string())` accepts exactly the objects (and arrays) whose values are all strings; the output has their entries in order, each value as its string |
| Schema.ValidateServer | src/config/schema.ts:3-26 | an entry is accepted iff it is an object fitting one of the three variants. All need a string `description`. Stdio needs `type` absent or `"stdio"`, a string `command` and valid optional `args`/`env`. Http and sse need their `type` literal, a string `url` and valid optional `headers`. An entry fitting a variant gives that variant with its fields, whatever the property order and whatever other properties it has |
| Schema.ReorderedEntryAccepted | src/config/schema.ts:4-10 | an entry with its properties in another order, plus an unknown one, validates as the stdio entry of its fields |
| Schema.MissingTypeMeansStdio | src/config/schema.ts:5 | an entry without `type` that validates is a stdio entry (the default) |
| Schema.OptionalFieldsChecked | src/config/schema.ts:9-24 | `args`, `env` and `headers` are in the output iff present in the entry, and then as validated |
| Schema.ToJson | src/config/schema.ts:3-26 | the output written back is an object |
| Schema.StringMapRoundTrip | src/config/schema.ts:10 | a string map written as an object validates back to itself |
| Schema.StringListRoundTrip | src/config/schema.ts:9 | a string list written as an array validates back to itself |
| Schema.ValidateToJson | src/config/schema.ts:3-26 | validating a written-back entry gives the entry |
| Schema.ValidateIdempotent | src/config/schema.ts:3-26 | validation is a normalisation: validating its output again changes nothing |
| Schema.ValidateServers | src/config/schema.ts:31 | the record is accepted iff every entry validates, keeping names and order |
| Schema.ValidateConfig | src/config/schema.ts:30-32 | a config is accepted iff it is an object whose `mcpServers` is a record of valid entries; the names are kept in order |
| LegacyTypes.ValidateLegacy | src/types.ts:3-14 | an entry is accepted iff it is an object with `type` exactly `"stdio"` (no default), string `description` and `command`, and valid optional `args` and `env`, whatever its property order; the output carries those values, with `args`/`env` as validated |
| LegacyTypes.LegacyIffExplicitStdio | src/types.ts:3-14 | the legacy schema accepts exactly the entries the current schema accepts as stdio and that spell out `type: "stdio"` |
| LegacyTypes.LegacyEntriesStillValid | src/types.ts:3-14 | the current schema accepts every legacy entry, as the same stdio entry |
| LegacyTypes.TypeIsRequiredInLegacy | src/types.ts:7 | the legacy schema rejects an entry without `type`, which the current one accepts as stdio |
| LegacyTypes.ValidateLegacyServers | src/types.ts:18-20 | the legacy record is accepted iff every entry validates, keeping names and order |
| LegacyTypes.ValidateLegacyConfig | src/types.ts:18-20 | a config is accepted iff it is an object whose `mcpServers` is a record of valid legacy entries; the output keeps the server names in order |
| LegacyTypes.LegacyConfigStillValid | src/types.ts:18-20 | every legacy record is accepted by the current schema |
| LegacyTypes.EmptyInputSchema | src/types.ts:31-39 | `{type: "object"}` is a valid `ToolInfo` input schema with no other field |
| EnvSubstitution.NameLength | src/utils/envSubstitution.ts:29 | the name read after `$` is the longest run of name characters (the greedy `*`) |
| EnvSubstitution.NameLengthOfName | src/utils/envSubstitution.ts:29 | a name followed by a character that cannot continue it is read in full |
| EnvSubstitution.MatchAt | src/utils/envSubstitution.ts:29 | a match at `$` consumes at least two characters and stays within the string |
| EnvSubstitution.MatchAtShape | src/utils/envSubstitution.ts:29-32 | every match is `${name}` (tried first) or `$name` for a well-formed name |
| EnvSubstitution.SubstOkIffDefined | src/utils/envSubstitution.ts:31-40 | substitution succeeds iff every referenced variable is defined |
| EnvSubstitution.SubstFailsOnFirstUndefined | src/utils/envSubstitution.ts:34-36 | a failure names the first reference, in the pattern's order, to an undefined variable |
| EnvSubstitution.PlainPrefix | src/utils/envSubstitution.ts:31 | text without `$` is copied unchanged and the rest is substituted on its own |
| EnvSubstitution.NoDollarUnchanged | src/utils/envSubstitution.test.ts:122-130 | a string without `$`, the empty one included, comes back unchanged |
| EnvSubstitution.BracedReference | src/utils/envSubstitution.ts:29-39 | `${NAME}` is replaced by the value (also an empty one) or raises `Environment variable 'NAME' is not defined` |
| EnvSubstitution.BareReference | src/utils/envSubstitution.ts:27-39 | `$NAME` is replaced in the same way, the name read greedily |
| EnvSubstitution.LoneDollarKept | src/utils/envSubstitution.ts:29 | a `$` followed by nothing or by a character that starts neither form is kept |
| EnvSubstitution.MalformedBraceKept | src/utils/envSubstitution.ts:29 | `${` without a well-formed `name}` is kept, with no fallback to the bare form |
| EnvSubstitution.DollarSignsThatAreNotReferences | src/utils/envSubstitution.test.ts:198-212 | `price: $100`, `$$` and `cost$` come back unchanged |
| EnvSubstitution.SinglePass | src/utils/envSubstitution.ts:31-40 | a reference becomes exactly the value; inserted values are not scanned again |
| EnvSubstitution.GreedyNames | src/utils/envSubstitution.test.ts:190-196 | `$HOME_DIR` and `${HOME_DIR}` look up `HOME_DIR`, never a shorter name |
| EnvSubstitution.AdjacentReferences | src/utils/envSubstitution.test.ts:107-112 | adjacent `${A}${B}` are both replaced |
| EnvSubstitution.SubstituteInArray | src/utils/envSubstitution.ts:77-79 | succeeds iff every element does, with the same length and each element substituted; otherwise the first failing element's error |
| EnvSubstitution.SubstitutedRecord | src/utils/envSubstitution.ts:54-64 | succeeds iff every value does, keeping keys and order with each value substituted; otherwise the first failing value's error |
| EnvSubstitution.SubstituteInObject | src/utils/envSubstitution.ts:54-64 | the loop builds exactly `SubstitutedRecord` and leaves its input alone |
| EnvSubstitution.SubstitutedRecordErrSticks | src/utils/envSubstitution.ts:59-61 | once an entry fails, the whole record fails with that error |
| LoadConfig.NewArgs | src/config/loadConfig.ts:84-94 | `args` is rewritten only when present |
| LoadConfig.NewRecord | src/config/loadConfig.ts:100-146 | `env`/`headers` is rewritten only when present |
| LoadConfig.NewUrl | src/config/loadConfig.ts:118-124 | `url` is rewritten only when present |
| LoadConfig.Rewrite | src/config/loadConfig.ts:73-142 | the copy succeeds iff both rewrites do, the first error winning; the two fields take their new values, every other property keeps its own |
| LoadConfig.RewriteKeepsOrder | src/config/loadConfig.ts:73 | rewriting existing fields of the spread copy keeps the property names in order |
| LoadConfig.SubstitutedServer | src/config/loadConfig.ts:67-71 | a server entry that is not an object (a primitive or `null`) comes back unchanged |
| LoadConfig.SubstitutedServerKeepsShape | src/config/loadConfig.ts:67-150 | a substituted entry keeps its names in order and every property outside its type's two fields; an entry of an unknown type, or a non-object, comes back unchanged |
| LoadConfig.StdioArgsSubstituted | src/config/loadConfig.ts:84-94 | a stdio entry's string-array `args` is substituted element by element; any other `args` is kept |
| LoadConfig.StdioEnvSubstituted | src/config/loadConfig.ts:100-114 | a stdio entry's string-valued `env` record is substituted value by value; any other `env` is kept |
| LoadConfig.StreamUrlSubstituted | src/config/loadConfig.ts:115-124 | an http or sse entry's string `url` is substituted; any other `url` is kept |
| LoadConfig.StreamHeadersSubstituted | src/config/loadConfig.ts:130-146 | an http or sse entry's string-valued `headers` record is substituted; any other is kept |
| LoadConfig.StdioFailure | src/config/loadConfig.ts:81-114 | a stdio entry fails exactly when its `args` or its `env` does, the `args` error first |
| LoadConfig.SubstituteServerConfig | src/config/loadConfig.ts:67-150 | the method computes exactly `SubstitutedServer` |
| LoadConfig.Sweep | src/config/loadConfig.ts:37-53 | a successful sweep has one entry per server |
| LoadConfig.SweepMeaning | src/config/loadConfig.ts:37-53 | the sweep succeeds iff every server does, keeping names and positions; otherwise it reports the first failing server as `Failed to substitute environment variables in server '<name>': <message>` |
| LoadConfig.SweepErrSticks | src/config/loadConfig.ts:38-52 | once a server fails the sweep stops with that error |
| LoadConfig.SubstitutedConfig | src/config/loadConfig.ts:22-59 | input without an object `mcpServers` is returned unchanged; otherwise it fails iff the sweep does, and on success it keeps every top-level property and position, with `mcpServers` replaced by the swept servers |
| LoadConfig.ApplyEnvSubstitution | src/config/loadConfig.ts:22-59 | the loop and spread compute exactly `SubstitutedConfig` |
| LoadConfig.Load | src/config/loadConfig.ts:157-203 | invalid JSON raises `Specified configuration file is not a valid json: <path>`; a substitution error propagates; a schema failure raises `... is not satisfies the schema: <path>`; otherwise the validated servers |
| LoadConfig.LoadAsWritten | src/config/loadConfig.ts:157-203 | as written: invalid JSON and substitution errors raise as intended; past substitution, calling the missing `serverConfigSchema.safeParse` raises a `TypeError` |
| LoadConfig.LoadAsWrittenNeverLoads | src/config/loadConfig.ts:186-203 | as written no file ever loads; it agrees with the intended `Load` on every failure before validation, and raises the `TypeError` wherever `Load` succeeds |
| LoadConfig.EmptyConfigRejectedAsWritten | src/config/loadConfig.ts:186-203 | `{"mcpServers": {}}` loads as no servers under the intended validation, and raises the `TypeError` as written |
| LoadConfig.LoadKeepsServerNames | src/config/loadConfig.ts:22-202 | a loaded configuration has exactly the file's server names, in order |
| Groups.Raise | src/proxy/ModularMcpClient.ts:108-111 | a raised `Error` has name `Error` and exactly the given message |
| Groups.ErrorString | src/proxy/ModularMcpClient.ts:111 | `${error}` of an `Error` is name and message joined by `: `, either alone when the other is empty |
| Groups.MessageOf | src/server.ts:179 | a caught `Error` gives its message and any other thrown value what `String` makes of it |
| Groups.CloseBoth | src/proxy/ModularMcpClient.ts:157-160 | the client is closed first; the transport is closed only when that succeeded; the first failure is the one raised |
| Groups.Survivors | src/proxy/ModularMcpClient.ts:165-170 | the survivors of a sweep are at most the entries there were |
| Groups.DisconnectOneMore | src/proxy/ModularMcpClient.ts:165-170 | one more entry extends the survivors and the close calls at their end |
| Groups.SurvivorKeys | src/proxy/ModularMcpClient.ts:162-170 | every survivor is one of the original entries |
| Groups.NextDisconnect | src/proxy/ModularMcpClient.ts:151-170 | with the first `i` entries swept, the next name still finds its own entry, and deleting it leaves the survivors followed by the rest |
| Groups.NextSurvivors | src/proxy/ModularMcpClient.ts:162-170 | the map after one more disconnect: the entry stays iff its disconnect raised |
| Groups.DistinctSurvivors | src/proxy/ModularMcpClient.ts:29 | survivors followed by the rest still have distinct names |
| ProxyClient.AsError | src/proxy/ModularMcpClient.ts:72 | an `Error` is stored as it is; any other value becomes `new Error(String(value))` |
| ProxyClient.ErrorText | src/proxy/ModularMcpClient.ts:101 | a failed group shows the stack when there is one, else the message |
| ProxyClient.ListingsKeepOrder | src/proxy/ModularMcpClient.ts:76-103 | `listGroups` and `listFailedGroups` list entries in the map's order |
| ProxyClient.EveryEntryListed | src/proxy/ModularMcpClient.ts:76-103 | every connected record is in `listGroups` and every failed one in `listFailedGroups` |
| ProxyClient.OnlyConnectedListed | src/proxy/ModularMcpClient.ts:77-85 | `listGroups` lists nothing but connected records |
| ProxyClient.OnlyFailedListed | src/proxy/ModularMcpClient.ts:93-102 | `listFailedGroups` lists nothing but failed records |
| ProxyClient.Tools | src/proxy/ModularMcpClient.ts:105-115 | an absent name raises `Not connected to group: <name>`; a failed record raises `Group <name> failed to connect: <error>`; it succeeds iff the record is connected, with its stored tools |
| ProxyClient.Call | src/proxy/ModularMcpClient.ts:117-146 | the guards of `listTools`; past them, the named group's client is sent `{name: toolName, arguments: args}` and its answer comes back unchanged |
| ProxyClient.StoredRecordListed | src/proxy/ModularMcpClient.ts:53-162 | a stored record decides `listTools` of its name and of no other; a deleted name is no longer connected |
| ProxyClient.Effect | src/proxy/ModularMcpClient.ts:157-160 | a connected record closes client then transport; a failed record closes nothing |
| ProxyClient.ModularMcpClient.Connect | src/proxy/ModularMcpClient.ts:33-61 | a present name changes nothing; otherwise a success appends a connected record with the entry's description and the listed tools, and a failure propagates and stores nothing |
| ProxyClient.ModularMcpClient.RecordFailedConnection | src/proxy/ModularMcpClient.ts:63-74 | stores a failed record, overwriting an existing one in its place |
| ProxyClient.ModularMcpClient.Disconnect | src/proxy/ModularMcpClient.ts:151-163 | an absent name changes nothing; otherwise its closes are made and the record is deleted unless one raised, which propagates and keeps it |
| ProxyClient.ModularMcpClient.DisconnectAll | src/proxy/ModularMcpClient.ts:165-170 | every entry present at the start is disconnected in order; exactly those whose disconnect raised remain, in order; the close calls are all of theirs in order |
| ProxyClient.ModularMcpClient.DisconnectNext | src/proxy/ModularMcpClient.ts:166-168 | one step of the sweep keeps the sweep's invariant |
| ClientManager.Infos | src/client-manager.ts:48-53 | `listGroups` lists every record, in insertion order |
| ClientManager.Tools | src/client-manager.ts:55-62 | succeeds iff the name is present, with the stored tools; else raises `Not connected to group: <name>` |
| ClientManager.Call | src/client-manager.ts:64-90 | raises for an absent name; otherwise the named group's client is sent `{name: toolName, arguments: args}` and its answer comes back unchanged |
| ClientManager.StoredRecordListed | src/client-manager.ts:39-104 | a stored record decides `listTools` of its name and of no other; a deleted name raises |
| ClientManager.ClientManager.Connect | src/client-manager.ts:19-46 | a present name changes nothing; otherwise a success appends the record and a failure propagates with the map unchanged |
| ClientManager.ClientManager.Disconnect | src/client-manager.ts:95-105 | an absent name changes nothing; otherwise client then transport are closed and the record deleted, unless a close raised |
| ClientManager.ClientManager.DisconnectAll | src/client-manager.ts:107-112 | every record present at the start is disconnected; exactly those whose close raised remain, in order |
| ClientManager.ClientManager.DisconnectNext | src/client-manager.ts:108-110 | one step of the sweep keeps the sweep's invariant |
| Server.GroupLines | src/server.ts:52-53 | one `- name: description` line per group, in the groups' order |
| Server.Names | src/server.ts:51 | the group names, in the groups' order |
| Server.SplitJoin | src/server.ts:52-54 | lines without the separator, joined by it, split back into exactly those lines (the partner of `join`) |
| Server.GroupsDescribedLineByLine | src/server.ts:52-54 | when no name or description holds a line break, the groups part of the description splits at line breaks into exactly one line per group, in order |
| Server.GroupProperty | src/server.ts:64-68 | the `group` property offers exactly the listed group names as its `enum` |
| Server.GetToolsSchema | src/server.ts:61-71 | the `get-modular-tools` input schema offers the group names for `group` and requires only `group` |
| Server.CallToolSchema | src/server.ts:74-96 | the `call-modular-tool` input schema offers the group names for `group` and requires `group` and `name` |
| Server.ListToolsResponse | src/server.ts:49-100 | `ListTools` answers exactly two tools, `get-modular-tools` then `call-modular-tool`, with the groups description and both schemas over the listed names |
| Server.ParseGetTools | src/server.ts:11-13 | arguments are accepted exactly when they are present and `group` is a string, and then that string is the group |
| Server.ParseCallTool | src/server.ts:15-19 | a call is accepted iff it has string `group` and `name` and a record `args` (an object, or an array taken as the record of its indices); the call then carries exactly those values |
| Server.ArrayArgsForwarded | src/server.ts:15-19 | an array `args` such as `["x"]` is parsed as the record `{"0": "x"}` |
| Server.ArrayArgsReachUpstream | src/server.ts:145-173 | for a connected group, the handler sends the group's client the tool name and the array `args` as `{"0": x}`, and answers with the client's items and `isError` |
| Server.ArgsRequiredOnlyByHandler | src/server.ts:15-95 | the advertised schema requires only `group` and `name`, yet a call without `args` is rejected by the handler |
| Server.StripSchema | src/server.ts:131-132 | the listed input schema has no `$schema` and keeps every other property of the tool's schema |
| Server.ToolEntry | src/server.ts:133-137 | a listed tool has its name, its description when it has one (none otherwise) and its schema without `$schema` |
| Server.ToolEntries | src/server.ts:130-138 | one entry per tool of the group, in order |
| Server.UpstreamItems | src/server.ts:169 | the upstream content items, unchanged and in order |
| Server.HandleCall | src/server.ts:102-190 | an unknown tool raises `Unknown tool: <name>`; invalid arguments give `{success: false, error: issues}` with `isError`; `get-modular-tools` lists the group's tools or raises what `listTools` raised; `call-modular-tool` sends the named group's client the parsed tool `name` and `args` and returns its content and `isError`, or the raised message as an error payload |
| Server.HandlerErrors | src/server.ts:123-186 | a `call-modular-tool` call never raises; `get-modular-tools` for a group that is not connected raises `Not connected to group: <group>` |
| Server.Connected | src/server.ts:33-37 | the stored groups are at most the entries |
| Server.FirstFailure | src/server.ts:33-37 | there is no failure exactly when every entry's connect succeeded |
| Server.ConnectedKeys | src/server.ts:33-37 | only names of configured entries are stored |
| Server.StartUp | src/server.ts:21-37 | start-up connects every entry into a fresh, valid manager; the stored groups are exactly those that connected, in entry order; the start-up fails with the first failure in entry order, if any |
| Migrate.TrimStartSpec | src/cli/actions/migrate.ts:67 | dropping leading white space leaves a suffix that does not start with white space, and everything dropped is white space |
| Migrate.TrimEndSpec | src/cli/actions/migrate.ts:67 | dropping trailing white space leaves a prefix that does not end with white space, and everything dropped is white space |
| Migrate.TrimSpec | src/cli/actions/migrate.ts:67 | `trim()` is empty exactly when the whole string is white space; otherwise it starts and ends with a character that is not white space |
| Migrate.TrimPadded | src/cli/actions/migrate.ts:75 | trimming exactly undoes padding with white space on either side (the reference for `trim`) |
| Migrate.TrimIdempotent | src/cli/actions/migrate.ts:75 | trimming twice is trimming once |
| Migrate.Validate | src/cli/actions/migrate.ts:66-71 | an accepted input has a non-empty trim; a rejected one gets `Description cannot be empty` |
| Migrate.ValidateAccepts | src/cli/actions/migrate.ts:66-71 | an input is accepted exactly when some character of it is not white space |
| Migrate.FirstAccepted | src/cli/actions/migrate.ts:61-73 | the prompt stops at an accepted input, or at the end when none is accepted |
| Migrate.RejectedBeforeAccepted | src/cli/actions/migrate.ts:61-73 | every input before the accepted one was rejected with the error text |
| Migrate.Description | src/cli/actions/migrate.ts:75 | a stored description is never empty |
| Migrate.DescriptionTrimmed | src/cli/actions/migrate.ts:75 | a stored description has no white space at either end and trimming it again changes nothing |
| Migrate.Interpolated | src/cli/actions/migrate.ts:51-55 | an absent property interpolates as `undefined`, a string as itself |
| Migrate.ServerType | src/cli/actions/migrate.ts:48 | the type shown is the entry's truthy `type`, and `stdio` when it is absent or falsy |
| Migrate.ServerInfoAsWritten | src/cli/actions/migrate.ts:49-59 | as written, the label exists exactly when `type` is literally `stdio`, `http` or `sse`; otherwise it raises `Unknown server type: [object Object]` |
| Migrate.ServerInfo | src/cli/actions/migrate.ts:48-59 | the label, decided on the shown type: `command: <command>` for stdio, `<type>: <url>` for http and sse, and the error for any other type |
| Migrate.LabelsAgreeWhenTyped | src/cli/actions/migrate.ts:48-59 | both labels agree on every entry whose `type` is present and truthy |
| Migrate.UntypedEntryRaisesAsWritten | src/cli/actions/migrate.ts:48-59 | an entry without `type` is shown as stdio, yet the code as written raises on it; the corrected label is its command |
| Migrate.OutputEntryFields | src/cli/actions/migrate.ts:91-94 | `{description, ...serverConfig}` starts with `description`, keeps every property of the entry with its value (its own `description` included), adds nothing else, and has distinct names |
| Migrate.MigratedKeys | src/cli/actions/migrate.ts:88-95 | the output lists exactly the input's server names, in the same order, and they stay distinct |
| Migrate.StopFrom | src/cli/actions/migrate.ts:47-76 | the run stops, from a position on, at a server whose label raises or whose prompt is never answered, or at the end |
| Migrate.UnblockedBeforeStop | src/cli/actions/migrate.ts:47-76 | every server before the one that stops the run is labelled and answered |
| Migrate.Stop | src/cli/actions/migrate.ts:47-76 | the run stops at a server whose label raises or whose prompt is never answered, or at the end |
| Migrate.Descriptions | src/cli/actions/migrate.ts:75 | one stored description per answered server, in order |
| Migrate.PromptsStep | src/cli/actions/migrate.ts:47-76 | a server whose label raises shows no prompt and stops the run; an unanswered one shows its prompt and stops it; an answered one shows its prompt and the run goes on |
| Migrate.PromptsCount | src/cli/actions/migrate.ts:47-76 | one prompt per server up to the one that stops the run, which shows its prompt only when its label did not raise |
| Migrate.PromptAt | src/cli/actions/migrate.ts:61-65 | the prompt shown for each server names the server, its shown type and its label, and the label did not raise |
| Migrate.DescriptionMapStep | src/cli/actions/migrate.ts:75 | each answered server adds its trimmed answer under its name |
| Migrate.DescriptionMapAt | src/cli/actions/migrate.ts:75-89 | with distinct names, every answered server maps to its own description |
| Migrate.CollectDescriptions | src/cli/actions/migrate.ts:44-76 | on the corrected label `Migrate.ServerInfo` (see Findings), the first loop shows exactly the prompts of the reference; the run stops at the first server whose label raises (with that error) or whose prompt is never answered; otherwise every server was answered and every server's description is recorded |
| Migrate.MigratedStep | src/cli/actions/migrate.ts:91-94 | setting the next server's entry appends it to the output so far |
| Migrate.BuildServers | src/cli/actions/migrate.ts:78-95 | the second loop builds exactly each input server, in order, under its name with its description |
| Migrate.MigrateAction | src/cli/actions/migrate.ts:13-145 | on the corrected label, as `Migrate.CollectDescriptions`: an unreadable or invalid file raises its message with nothing prompted or written; a stopped run writes nothing; otherwise the modular configuration is written to the resolved output path, then the original file is replaced by the installer entry, and each failed write raises its message with only the earlier writes done |

## Left out

- File reading, `JSON.parse`, `JSON.stringify` and `writeFile` are not modelled. Each becomes an outcome or an already-parsed value. A text item of a tool answer holds the JSON value it would print.
- `loadConfig`'s `readFile`: a failed read is not modelled. `LoadConfig.Load` starts from the file's parsed content, or from its parse failure.
- LoadConfig.Load: models the intended validation. As written, `loadConfig.ts:189` calls `serverConfigSchema.safeParse`, but `serverConfigSchema` is a valibot schema with no such method, so every load that gets past substitution raises a `TypeError` (`LoadConfig.LoadAsWritten`, Findings). `Load` checks the configuration against `Schema`'s validity function instead, and leaves out the error's `cause`, which is a zod `z.treeifyError` call.
- `migrate`'s `standardServerConfigSchema` is not exported by the schema module. The check of the input file is an oracle (`Migrate.Loaded`), and so are the file read and parse.
- CLI parsing, `process.exit`, the SIGINT/SIGTERM handlers and the logger are left out: they are process side effects.
- The schema generator is left out: it generates JSON schema with a foreign library and writes a file.
- MCP SDK clients, transports and `finishAuth` are left out. Their results are oracles, and a transport is a value that records how it was built. The answer of a group's client to `callTool` is the oracle `ProxyClient.Upstream`, addressed by the group name and the request `{name, arguments}`: which client object sits behind the name is not modelled.
- Concurrency is left out. `Promise.all` and `Promise.allSettled` run as sequential loops in source order: the start-up sweep, `disconnectAll` and `invalidateCredentials`.
- The lock's waiting is not modelled as a scheduler. A ticket may proceed once it is at the head of the queue.
- `get-port`, `setTimeout`, `open()`, `sanitizeUrl`, Hono's request routing and the HTTP listener are left out. In their place the model has:
  - a chosen port;
  - an armed-timer flag;
  - a browser outcome;
  - an open flag with a close counter.
- `crypto.randomUUID` and md5 are parameters: the `state` value and an uninterpreted `keyOf`.
  - `keyOf` gives equal urls equal directories and nothing more.
  - `URL` host extraction is an uninterpreted `hostOf`.
- JavaScript lists integer-like property names first. The model keeps every object in insertion order.
- Fractional and non-finite numbers are not modelled. JSON numbers are integers.
- ControllablePromise: the `Illegal state` branch is not modelled. The executor runs synchronously, so both functions are always set.
- ConnectWithAuthentication.Connect: unbounded retries are modelled over a finite sequence of outcomes. A run that uses up the outcomes ends as `Unfinished`.
- ProxyClient.ModularMcpClient.Connect: the transport that `connectWithAuthentication` is destructured for is taken from the connect oracle. That function takes two arguments and returns nothing, while the caller passes three and reads a `transport` from its result.
- ClientManager: `./transport.js` (the stdio transport factory it imports) is not part of this model. Its transport is a value built from the entry.
- Migrate.CollectDescriptions: runs on the corrected label `Migrate.ServerInfo`, not `Migrate.ServerInfoAsWritten`. On an entry the input schema leaves without `type`, it prompts where the code as written raises `Unknown server type`. The two agree on every typed entry (`Migrate.LabelsAgreeWhenTyped`).
- Migrate.MigrateAction: uses the corrected label through `Migrate.CollectDescriptions`. On a file with an untyped entry, it goes on where the code as written stops with the label's error and writes nothing.
- Server.Connected: its own contract bounds only the length. What it holds is stated by `Server.ConnectedKeys` and `Server.StartUp`.

## Findings

| source | as written | input that shows it | evidently intended | confidence | as-written member | corrected member |
|---|---|---|---|---|---|---|
| src/proxy/createTransport.ts:29-56 | the port is read and saved as kind `callback-port`. `AuthStore` has no file for that kind: a read gives `undefined` and a save throws `Invalid kind` | any http or sse entry. No port is persisted, so a listener is created and its port differs from the preferred (absent) one; the save throws, after the listener is cached and open | the port is persisted under the server url and read back on the next call | high, not executed | CreateTransport.CreateStreamTransportAsWritten | CreateTransport.CreateStreamTransport |
| src/config/loadConfig.ts:189 | validation calls `serverConfigSchema.safeParse`, a zod method, on a valibot schema, which is a plain object without it | `{"mcpServers": {}}` with any environment. Substitution succeeds, then the call raises `serverConfigSchema.safeParse is not a function` | `v.safeParse(serverConfigSchema, data)`, as `src/server.ts:145` does | high, not executed | LoadConfig.LoadAsWritten | LoadConfig.Load |
| src/cli/actions/migrate.ts:48-58 | the prompt shows `type \|\| "stdio"`, but the label compares `serverConfig.type` itself with `"stdio"`, `"http"` and `"sse"` | `{"command": "npx"}`, a stdio entry without `type`, which the schema accepts. It raises `Unknown server type: [object Object]` | an untyped entry is labelled `command: npx`, as the type shown beside it says | medium, not executed | Migrate.ServerInfoAsWritten | Migrate.ServerInfo |

In the first row, `CreateTransport.Slot.EnsureCallbackServerAsWritten` is the as-written listener step. The corrected store keeps the port in a file of its own: `AuthStore.Store.SaveCallbackPort` and `AuthStore.Store.GetCallbackPort`. In the second row, `LoadConfig.EmptyConfigRejectedAsWritten` exhibits the input and `LoadConfig.LoadAsWrittenNeverLoads` proves that no file loads. In the third row, `Migrate.UntypedEntryRaisesAsWritten` exhibits the input, and `Migrate.LabelsAgreeWhenTyped` shows that the two labels differ only on untyped entries.

## Where the code and its documentation disagree

The model follows the code in each case.

- **Environment substitution.** The tests expect `$VAR` to be left alone and undefined variables to be kept with a warning (src/utils/envSubstitution.test.ts:71-96, 153-186). The code substitutes both `${VAR}` and `$VAR` and throws `Environment variable 'NAME' is not defined` (src/utils/envSubstitution.ts:29-36).
- **Retry on `Unauthorized`.** It is not limited to one retry: a run retries for as long as `Unauthorized` is thrown (src/proxy/connectWithAuthentication.ts:15-38).
- **The lock.** It is not released when the completion callback throws (src/auth/ProxyOAuthClientProvider.ts:153-166).
- **Deleting a credential file.** Deleting one that is absent raises, because `rm` is called without `force` (src/auth/AuthStore.ts:116-129).
- **The `migrate` output path.** It is resolved from `outputPath` alone, against the working directory, not next to the input file as the doc comment says (src/cli/actions/migrate.ts:11, 17, 98).
- **Credential invalidation after a port change.** It deletes under the digest of the server url, while the provider stores everything under `localhost`. When the two digests differ, the provider's files survive (`CreateTransport.InvalidationMissesProviderFiles`).
- **The `getTransport` listener.** It is created once per process and never reset, even after its completion callback ran (src/proxy/getTransport.ts:8, 21).
