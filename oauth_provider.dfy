/** The OAuth client provider the proxy hands to the SDK for a remote server
    (src/auth/ProxyOAuthClientProvider.ts): a public client (RFC 7591 section 2
    metadata, token endpoint auth method "none") using the authorization code grant
    (RFC 6749 section 4.1) with a PKCE verifier (RFC 7636). It redirects to a loopback
    listener by the host name "localhost", not by the IP literal that section 7.3 of
    RFC 8252 describes. Client registration, tokens and verifier live in the
    credential store, always under the callback host "localhost", so the registration
    is shared by every remote server. */
module OAuthProvider {
  import opened Wrappers
  import opened Json
  import opened AuthStore
  import opened LockAuthServer

  /** `authServerConfig.host`: the key of every store call. */
  const CallbackHost := "localhost"
  const CallbackPath := "/oauth/callback"

  /** `new URL("/oauth/callback", "http://localhost:<port>").href`; the URL parser drops
      the default port 80. */
  function RedirectUrl(port: Port): (url: string)
    ensures port == 80 ==> url == "http://localhost" + CallbackPath
    ensures port != 80 ==> url == "http://localhost:" + NatToString(port) + CallbackPath
  {
    if port == 80 then "http://" + CallbackHost + CallbackPath
    else "http://" + CallbackHost + ":" + NatToString(port) + CallbackPath
  }

  /** Different callback ports give different redirect URLs. */
  lemma RedirectUrlInjective(p: Port, q: Port)
    requires RedirectUrl(p) == RedirectUrl(q)
    ensures p == q
  {
    // With port 80 on one side only, the two URLs already differ in length.
    if p != 80 && q != 80 {
      var u := RedirectUrl(p);
      var a, b := NatToString(p), NatToString(q);
      var prefix := "http://localhost:";
      assert u == prefix + a + CallbackPath;
      assert u == prefix + b + CallbackPath;
      assert |a| == |b|;
      assert a == u[|prefix|..|prefix| + |a|];
      assert b == u[|prefix|..|prefix| + |b|];
      NatToStringInjective(p, q);
    }
  }

  /** `OAuthClientMetadata` as the provider advertises it. */
  datatype ClientMetadata = ClientMetadata(
    redirectUris: seq<string>,
    tokenEndpointAuthMethod: string,
    grantTypes: seq<string>,
    responseTypes: seq<string>,
    clientName: string,
    clientUri: string,
    softwareId: string,
    softwareVersion: string)

  /** `clientMetadata`: one redirect URI, no client secret, the two grants of a public
      client with refresh, and the code response type; `version` is the package
      version. */
  function ClientMetadataFor(port: Port, version: string): (m: ClientMetadata)
    ensures m.redirectUris == [RedirectUrl(port)]
    ensures m.tokenEndpointAuthMethod == "none"
    ensures m.grantTypes == ["authorization_code", "refresh_token"] && m.responseTypes == ["code"]
    ensures m.clientName == "Modular MCP OAuth Client" && m.clientUri == "https://github.com/d-kimuson/modular-mcp"
    ensures m.softwareId == "a8e667eb-1a70-4a87-9a05-8e9d7734f6c7" && m.softwareVersion == version
  {
    ClientMetadata([RedirectUrl(port)], "none", ["authorization_code", "refresh_token"], ["code"],
      "Modular MCP OAuth Client", "https://github.com/d-kimuson/modular-mcp",
      "a8e667eb-1a70-4a87-9a05-8e9d7734f6c7", version)
  }

  /** `clientInformation` over what the store holds: a stored registration counts only
      while its first redirect URI is the current redirect URL, so a registration made
      for another callback port reads as absent. */
  function FreshRegistration(stored: Option<Artifact>, port: Port): (r: Option<ClientInformation>)
    ensures r.Some? <==>
      stored.Some? && stored.value.ClientFile? && |stored.value.client.redirectUris| > 0 &&
      stored.value.client.redirectUris[0] == RedirectUrl(port)
    ensures r.Some? ==> stored == Some(ClientFile(r.value))
  {
    if stored.Some? && stored.value.ClientFile? && |stored.value.client.redirectUris| > 0 &&
       stored.value.client.redirectUris[0] == RedirectUrl(port)
    then Some(stored.value.client)
    else None
  }

  /** A registration whose redirect URIs are the advertised ones is used again as long as
      the callback port stays the same, and is ignored once the port changes. */
  lemma RegistrationFollowsPort(c: ClientInformation, version: string, registered: Port, current: Port)
    requires c.redirectUris == ClientMetadataFor(registered, version).redirectUris
    ensures FreshRegistration(Some(ClientFile(c)), current).Some? <==> registered == current
  {
    if FreshRegistration(Some(ClientFile(c)), current).Some? {
      RedirectUrlInjective(registered, current);
    }
  }

  /** Which kinds `invalidateCredentials(scope)` deletes. */
  datatype Scope = All | ClientOnly | TokensOnly | VerifierOnly

  predicate Selects(scope: Scope, kind: Kind) {
    match scope
    case All => kind != CallbackPort
    case ClientOnly => kind == Client
    case TokensOnly => kind == Tokens
    case VerifierOnly => kind == Verifier
  }

  /** The files of `dir` that `scope` selects. */
  function Targets(dir: string, scope: Scope): (t: set<(string, FileName)>)
    ensures forall k :: k != CallbackPort ==> ((dir, FileOf(k).value) in t <==> Selects(scope, k))
    ensures forall f :: f in t ==> f.0 == dir
  {
    (if Selects(scope, Client) then {(dir, ClientJson)} else {}) +
    (if Selects(scope, Tokens) then {(dir, TokensJson)} else {}) +
    (if Selects(scope, Verifier) then {(dir, VerifierTxt)} else {})
  }

  /** `all` selects all three kinds; each single scope selects its own kind and no
      other. */
  lemma ScopeSelection(dir: string, scope: Scope)
    ensures scope == All ==> Targets(dir, scope) == {(dir, ClientJson), (dir, TokensJson), (dir, VerifierTxt)}
    ensures scope == ClientOnly ==> Targets(dir, scope) == {(dir, ClientJson)}
    ensures scope == TokensOnly ==> Targets(dir, scope) == {(dir, TokensJson)}
    ensures scope == VerifierOnly ==> Targets(dir, scope) == {(dir, VerifierTxt)}
  {
  }

  /** `URLSearchParams.set(name, value)`: the first pair with that name gets the value and
      later pairs with that name go; with no such pair, the pair is appended. */
  function WithParam(params: seq<(string, string)>, name: string, value: string): (r: seq<(string, string)>)
    ensures Lookup(r, name) == Some(value)
    ensures Others(r, name) == Others(params, name)
    ensures |r| == |Others(params, name)| + 1
  {
    if params == [] then [(name, value)]
    else if params[0].0 == name then [(name, value)] + Others(params[1..], name)
    else [params[0]] + WithParam(params[1..], name, value)
  }

  /** The pairs whose name is not `name`, in order. */
  function Others(params: seq<(string, string)>, name: string): (r: seq<(string, string)>)
    ensures |r| <= |params|
    ensures !HasKey(r, name)
    ensures !HasKey(params, name) ==> r == params
  {
    if params == [] then []
    else if params[0].0 == name then Others(params[1..], name)
    else [params[0]] + Others(params[1..], name)
  }

  /** The URL object the SDK passes in; its query parameters change in place. */
  class AuthorizationUrl {
    const base: string
    var params: seq<(string, string)>

    constructor(base: string, params: seq<(string, string)>)
      ensures this.base == base && this.params == params
    {
      this.base := base;
      this.params := params;
    }

    method SetParam(name: string, value: string)
      modifies this
      ensures params == WithParam(old(params), name, value)
    {
      params := WithParam(params, name, value);
    }
  }

  class Provider {
    /** The provider's own `AuthStore`. */
    const store: Store
    const remoteMcpServerUrl: string
    const authorizeResource: Option<string>
    const callbackPort: Port
    /** `mutableState.state`: a random UUID drawn at creation and never reassigned, so
        `state()` gives the same value for the provider's whole lifetime. */
    const state: string
    const softwareVersion: string
    /** `new URL(u).host`. */
    const hostOf: string -> string
    /** Whether a completion callback has been installed; what it does when it runs is
        an outcome passed to `FinishAuthorization`. */
    var hasAwaitAuthCompleted: bool

    /** `create`: `uuid` is the value `randomUUID()` returned. */
    constructor Create(store: Store, remoteMcpServerUrl: string, authorizeResource: Option<string>,
                       callbackPort: Port, uuid: string, softwareVersion: string, hostOf: string -> string)
      ensures this.store == store && this.remoteMcpServerUrl == remoteMcpServerUrl
      ensures this.authorizeResource == authorizeResource && this.callbackPort == callbackPort
      ensures state == uuid && this.softwareVersion == softwareVersion && this.hostOf == hostOf
      ensures !hasAwaitAuthCompleted
    {
      this.store := store;
      this.remoteMcpServerUrl := remoteMcpServerUrl;
      this.authorizeResource := authorizeResource;
      this.callbackPort := callbackPort;
      state := uuid;
      this.softwareVersion := softwareVersion;
      this.hostOf := hostOf;
      hasAwaitAuthCompleted := false;
    }

    method SetAwaitAuthCompleted()
      modifies this
      ensures hasAwaitAuthCompleted
    {
      hasAwaitAuthCompleted := true;
    }

    method ClientInformation() returns (r: Option<ClientInformation>)
      ensures r == FreshRegistration(store.Stored(CallbackHost, Client), callbackPort)
    {
      var stored := store.GetPersistenceFile(CallbackHost, Client);
      if stored.Some? && stored.value.ClientFile? && |stored.value.client.redirectUris| > 0 &&
         stored.value.client.redirectUris[0] == RedirectUrl(callbackPort) {
        return Some(stored.value.client);
      }
      return None;
    }

    method SaveClientInformation(c: ClientInformation)
      modifies store
      ensures store.files == Saved(old(store.files), store.keyOf(CallbackHost), ClientFile(c))
      ensures store.dirs == old(store.dirs) + {store.keyOf(CallbackHost)}
    {
      var _ := store.SavePersistenceFile(CallbackHost, Client, ClientFile(c));
    }

    method Tokens() returns (r: Option<OAuthTokens>)
      ensures r.Some? <==> store.Stored(CallbackHost, Kind.Tokens).Some?
      ensures r.Some? ==> store.Stored(CallbackHost, Kind.Tokens) == Some(TokensFile(r.value))
    {
      var stored := store.GetPersistenceFile(CallbackHost, Kind.Tokens);
      if stored.Some? {
        return Some(stored.value.tokens);
      }
      return None;
    }

    method SaveTokens(t: OAuthTokens)
      modifies store
      ensures store.files == Saved(old(store.files), store.keyOf(CallbackHost), TokensFile(t))
      ensures store.dirs == old(store.dirs) + {store.keyOf(CallbackHost)}
    {
      var _ := store.SavePersistenceFile(CallbackHost, Kind.Tokens, TokensFile(t));
    }

    method SaveCodeVerifier(v: string)
      modifies store
      ensures store.files == Saved(old(store.files), store.keyOf(CallbackHost), VerifierFile(v))
      ensures store.dirs == old(store.dirs) + {store.keyOf(CallbackHost)}
    {
      var _ := store.SavePersistenceFile(CallbackHost, Verifier, VerifierFile(v));
    }

    /** `codeVerifier`: the stored verifier, or `Code verifier not found`. */
    method CodeVerifier() returns (r: Result<string, string>)
      ensures r.Err? <==> store.Stored(CallbackHost, Verifier).None?
      ensures r.Err? ==> r.error == "Code verifier not found"
      ensures r.Ok? ==> store.Stored(CallbackHost, Verifier) == Some(VerifierFile(r.value))
    {
      var stored := store.GetPersistenceFile(CallbackHost, Verifier);
      if stored.None? {
        return Err("Code verifier not found");
      }
      return Ok(stored.value.verifier);
    }

    /** `validateResourceURL`: rejects a resource other than the configured one and a
        server URL on another host than the remote server's; otherwise the URL is
        handed back unchanged. */
    function ValidateResourceUrl(serverUrl: string, resource: Option<string>): (r: Option<string>)
      ensures r.Some? <==>
        (authorizeResource.None? || resource == authorizeResource) &&
        hostOf(serverUrl) == hostOf(remoteMcpServerUrl)
      ensures r.Some? ==> r.value == serverUrl
    {
      if authorizeResource.Some? && resource != authorizeResource then None
      else if hostOf(serverUrl) != hostOf(remoteMcpServerUrl) then None
      else Some(serverUrl)
    }

    /** The remote server's own URL is accepted with the configured resource, and with
        any resource when none is configured. */
    lemma RemoteUrlAccepted(resource: Option<string>)
      requires authorizeResource.None? || resource == authorizeResource
      ensures ValidateResourceUrl(remoteMcpServerUrl, resource) == Some(remoteMcpServerUrl)
    {
    }

    method DeleteIfSelected(scope: Scope, kind: Kind) returns (r: Outcome<StoreError>)
      requires kind != CallbackPort
      modifies store
      ensures store.dirs == old(store.dirs)
      ensures var f := (store.keyOf(CallbackHost), FileOf(kind).value);
        if Selects(scope, kind) then
          store.files == old(store.files) - {f} && (r.Fail? <==> f !in old(store.files)) &&
          (r.Fail? ==> r.error == NoSuchFile(f.0, f.1))
        else store.files == old(store.files) && r == Pass
    {
      r := Pass;
      if Selects(scope, kind) {
        r := store.DeletePersistenceFile(CallbackHost, kind);
      }
    }

    /** `invalidateCredentials(scope)`: deletes exactly the selected files and nothing
        else; it fails when any selected file was already absent, and every selected
        deletion is attempted either way. */
    method InvalidateCredentials(scope: Scope) returns (r: Outcome<StoreError>)
      modifies store
      ensures store.dirs == old(store.dirs)
      ensures store.files == old(store.files) - Targets(store.keyOf(CallbackHost), scope)
      ensures r.Fail? <==> exists f :: f in Targets(store.keyOf(CallbackHost), scope) && f !in old(store.files)
      ensures r.Fail? ==>
                (r.error.NoSuchFile? &&
                 (r.error.dir, r.error.file) in Targets(store.keyOf(CallbackHost), scope) - old(store.files).Keys)
    {
      ghost var dir := store.keyOf(CallbackHost);
      ghost var before := store.files;
      var client := DeleteIfSelected(scope, Client);
      var tokens := DeleteIfSelected(scope, Kind.Tokens);
      var verifier := DeleteIfSelected(scope, Verifier);
      r := if client.Fail? then client else if tokens.Fail? then tokens else verifier;
      assert forall f :: f in Targets(dir, scope) ==>
        f == (dir, ClientJson) || f == (dir, TokensJson) || f == (dir, VerifierTxt);
    }

    /** The first half of `redirectToAuthorization`: the `resource` parameter is set iff
        one is configured, then the caller joins the lock's queue; `ticket` is the handle
        its `await` waits on. */
    method BeginAuthorization(url: AuthorizationUrl, lock: Lock) returns (ticket: nat)
      requires lock.Valid()
      modifies url, lock
      ensures lock.Valid()
      ensures authorizeResource.Some? ==> url.params == WithParam(old(url.params), "resource", authorizeResource.value)
      ensures authorizeResource.None? ==> url.params == old(url.params)
      ensures lock.queue == old(lock.queue) + [ticket] && lock.released == old(lock.released)
    {
      if authorizeResource.Some? {
        url.SetParam("resource", authorizeResource.value);
      }
      ticket := lock.Acquire();
    }

    /** The second half, once the wait has ended: opening the browser may fail, which is
        ignored; then the completion callback, if one is installed, runs with outcome
        `completion`, and the lock is released only when it did not fail; its failure
        propagates. */
    method FinishAuthorization(lock: Lock, ticket: nat, browser: Outcome<string>, completion: Outcome<string>)
      returns (r: Outcome<string>)
      requires lock.Valid() && lock.Ready(ticket)
      modifies lock
      ensures lock.Valid()
      ensures r == if hasAwaitAuthCompleted then completion else Pass
      ensures r.Fail? ==> lock.queue == old(lock.queue) && lock.released == old(lock.released)
      ensures r.Pass? ==> lock.queue == Without(old(lock.queue), ticket) && lock.released == old(lock.released) + {ticket}
    {
      // The outcome of `open` is swallowed by the empty catch.
      if hasAwaitAuthCompleted && completion.Fail? {
        return completion;
      }
      lock.Release(ticket);
      return Pass;
    }
  }
}
