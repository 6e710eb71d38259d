/** What `createTransport` and `getTransport` build from a server entry
    (src/proxy/createTransport.ts, src/proxy/getTransport.ts): a stdio transport from
    command, arguments and environment, or a streamable HTTP or SSE transport whose
    request headers are the configured headers plus a bearer token (RFC 6750 section
    2.1) when one is stored. The SDK transports themselves are not modelled; a
    transport is the configuration it was built from. */
module Transports {
  import opened Wrappers
  import opened Json
  import opened Schema
  import opened AuthStore

  datatype Transport =
    | StdioTransport(command: string, args: Option<seq<string>>, env: Option<StringMap>)
    | StreamableHttpTransport(url: string, headers: StringMap)
    | SseTransport(url: string, headers: StringMap)

  /** `{...config.headers, ...(tokens ? {Authorization: "Bearer " + access_token} : {})}`:
      the configured headers in their order, the bearer header overriding a configured
      `Authorization` in place or appended after them. */
  function BearerHeaders(headers: Option<StringMap>, tokens: Option<OAuthTokens>): (h: StringMap)
    ensures tokens.None? ==> h == headers.GetOr([])
    ensures tokens.Some? ==> Lookup(h, "Authorization") == Some("Bearer " + tokens.value.accessToken)
    ensures forall k :: k != "Authorization" ==> Lookup(h, k) == Lookup(headers.GetOr([]), k)
    ensures forall k :: HasKey(h, k) <==> HasKey(headers.GetOr([]), k) || (tokens.Some? && k == "Authorization")
  {
    var configured := headers.GetOr([]);
    if tokens.Some? then Set(configured, "Authorization", "Bearer " + tokens.value.accessToken)
    else configured
  }

  /** The merged headers list the configured names in their order; the bearer header
      takes the configured `Authorization` slot, or comes last. */
  lemma BearerHeadersOrder(headers: Option<StringMap>, tokens: OAuthTokens)
    ensures var configured := headers.GetOr([]);
      Keys(BearerHeaders(headers, Some(tokens))) ==
        if HasKey(configured, "Authorization") then Keys(configured) else Keys(configured) + ["Authorization"]
  {
    SetKeepsOrder(headers.GetOr([]), "Authorization", "Bearer " + tokens.accessToken);
  }

  /** The transport for an entry and the tokens the provider holds: stdio entries ignore
      the tokens and the streamable kinds keep their url. */
  function TransportFor(config: McpServerConfig, tokens: Option<OAuthTokens>): (t: Transport)
    ensures config.Stdio? <==> t.StdioTransport?
    ensures config.Stdio? ==> t == StdioTransport(config.command, config.args, config.env)
    ensures config.Http? ==> t == StreamableHttpTransport(config.url, BearerHeaders(config.headers, tokens))
    ensures config.Sse? ==> t == SseTransport(config.url, BearerHeaders(config.headers, tokens))
  {
    match config
    case Stdio(_, command, args, env) => StdioTransport(command, args, env)
    case Http(_, url, headers) => StreamableHttpTransport(url, BearerHeaders(headers, tokens))
    case Sse(_, url, headers) => SseTransport(url, BearerHeaders(headers, tokens))
  }
}
