/** `ModularMcpClient` (src/proxy/ModularMcpClient.ts): the group orchestrator. Its `groups`
    Map holds, per group name, a connected record (with the tools the upstream server
    listed) or a failed record (with the error). Connecting (`connectWithAuthentication`
    and `client.listTools` together), `client.callTool` and the `close` calls are
    oracles; the SDK client and transport objects are not modelled. */
module ProxyClient {
  import opened Wrappers
  import opened Json
  import opened Schema
  import opened LegacyTypes
  import opened Groups

  datatype GroupState =
    | ConnectedGroup(name: string, description: string, tools: seq<ToolInfo>)
    | FailedGroup(name: string, description: string, error: ErrorValue)

  datatype FailedGroupInfo = FailedGroupInfo(name: string, description: string, error: string)

  /** What `callTool` hands back: the upstream `content` and `isError`. */
  datatype ToolResponse = ToolResponse(content: seq<Json>, isError: Option<bool>)

  /** The request `client.callTool` sends: `{name: toolName, arguments: args}`. */
  datatype ToolRequest = ToolRequest(name: string, arguments: Fields)

  /** How the client stored under a group name answers a request: the upstream server
      is an oracle, addressed through the group it was connected for. */
  type Upstream = (string, ToolRequest) -> Result<ToolResponse, Cause>

  /** `error instanceof Error ? error : new Error(String(error))`; `stack` is the stack the
      runtime gives the new `Error`. */
  function AsError(cause: Cause, stack: Option<string>): (e: ErrorValue)
    ensures cause.ErrorCause? ==> e == cause.error
    ensures cause.OtherCause? ==> e.name == "Error" && e.message == cause.text && e.stack == stack
  {
    match cause
    case ErrorCause(e) => e
    case OtherCause(text) => ErrorValue("Error", text, stack)
  }

  /** `error.stack ?? error.message`. */
  function ErrorText(e: ErrorValue): (s: string)
    ensures e.stack.Some? ==> s == e.stack.value
    ensures e.stack.None? ==> s == e.message
  {
    e.stack.GetOr(e.message)
  }

  /** `listGroups` over the map's entries: the connected ones, in insertion order. */
  function ConnectedInfos(gs: seq<(string, GroupState)>): seq<McpGroupInfo> {
    if gs == [] then []
    else (if gs[0].1.ConnectedGroup? then [McpGroupInfo(gs[0].1.name, gs[0].1.description)] else [])
         + ConnectedInfos(gs[1..])
  }

  /** `listFailedGroups` over the map's entries: the failed ones, in insertion order. */
  function FailedInfos(gs: seq<(string, GroupState)>): seq<FailedGroupInfo> {
    if gs == [] then []
    else (if gs[0].1.FailedGroup? then [FailedGroupInfo(gs[0].1.name, gs[0].1.description, ErrorText(gs[0].1.error))] else [])
         + FailedInfos(gs[1..])
  }

  /** Both listings keep the map's order: listing two runs of entries lists the first
      run, then the second. */
  lemma {:induction false} ListingsKeepOrder(a: seq<(string, GroupState)>, b: seq<(string, GroupState)>)
    ensures ConnectedInfos(a + b) == ConnectedInfos(a) + ConnectedInfos(b)
    ensures FailedInfos(a + b) == FailedInfos(a) + FailedInfos(b)
  {
    if a == [] {
      assert a + b == b;
    } else {
      var ab, g := a + b, a[0].1;
      assert ab[0] == a[0] && ab[1..] == a[1..] + b;
      ListingsKeepOrder(a[1..], b);
      var c := if g.ConnectedGroup? then [McpGroupInfo(g.name, g.description)] else [];
      var f := if g.FailedGroup? then [FailedGroupInfo(g.name, g.description, ErrorText(g.error))] else [];
      assert ConnectedInfos(ab) == c + ConnectedInfos(a[1..] + b);
      assert ConnectedInfos(a) == c + ConnectedInfos(a[1..]);
      assert c + (ConnectedInfos(a[1..]) + ConnectedInfos(b)) == (c + ConnectedInfos(a[1..])) + ConnectedInfos(b);
      assert FailedInfos(ab) == f + FailedInfos(a[1..] + b);
      assert FailedInfos(a) == f + FailedInfos(a[1..]);
      assert f + (FailedInfos(a[1..]) + FailedInfos(b)) == (f + FailedInfos(a[1..])) + FailedInfos(b);
    }
  }

  /** Every connected entry is listed by `listGroups`, and every failed one by
      `listFailedGroups`. */
  lemma {:induction false} EveryEntryListed(gs: seq<(string, GroupState)>, i: nat)
    requires i < |gs|
    ensures gs[i].1.ConnectedGroup? ==> McpGroupInfo(gs[i].1.name, gs[i].1.description) in ConnectedInfos(gs)
    ensures gs[i].1.FailedGroup? ==>
      FailedGroupInfo(gs[i].1.name, gs[i].1.description, ErrorText(gs[i].1.error)) in FailedInfos(gs)
  {
    if i > 0 {
      EveryEntryListed(gs[1..], i - 1);
    }
  }

  /** `listGroups` lists nothing but connected entries. */
  lemma {:induction false} OnlyConnectedListed(gs: seq<(string, GroupState)>, info: McpGroupInfo)
    requires info in ConnectedInfos(gs)
    ensures exists i :: 0 <= i < |gs| && gs[i].1.ConnectedGroup? && info == McpGroupInfo(gs[i].1.name, gs[i].1.description)
  {
    if gs[0].1.ConnectedGroup? && info == McpGroupInfo(gs[0].1.name, gs[0].1.description) {
    } else {
      OnlyConnectedListed(gs[1..], info);
      var i :| 0 <= i < |gs[1..]| && gs[1..][i].1.ConnectedGroup? && info == McpGroupInfo(gs[1..][i].1.name, gs[1..][i].1.description);
      assert gs[i + 1] == gs[1..][i];
    }
  }

  /** `listFailedGroups` lists nothing but failed entries. */
  lemma {:induction false} OnlyFailedListed(gs: seq<(string, GroupState)>, info: FailedGroupInfo)
    requires info in FailedInfos(gs)
    ensures exists i :: (0 <= i < |gs| && gs[i].1.FailedGroup? &&
                         info == FailedGroupInfo(gs[i].1.name, gs[i].1.description, ErrorText(gs[i].1.error)))
  {
    if gs[0].1.FailedGroup? && info == FailedGroupInfo(gs[0].1.name, gs[0].1.description, ErrorText(gs[0].1.error)) {
    } else {
      OnlyFailedListed(gs[1..], info);
      var i :| 0 <= i < |gs[1..]| && gs[1..][i].1.FailedGroup? &&
        info == FailedGroupInfo(gs[1..][i].1.name, gs[1..][i].1.description, ErrorText(gs[1..][i].1.error));
      assert gs[i + 1] == gs[1..][i];
    }
  }

  /** The "failed to connect" error text of a failed record. */
  function FailedToConnect(groupName: string, e: ErrorValue): string {
    "Group " + groupName + " failed to connect: " + ErrorString(e)
  }

  /** `listTools`: raises for an absent name and for a failed record, and returns the
      stored tools of a connected one. */
  function Tools(gs: seq<(string, GroupState)>, groupName: string): (r: Result<seq<ToolInfo>, Cause>)
    ensures !HasKey(gs, groupName) ==> r == Err(Raise("Not connected to group: " + groupName))
    ensures HasKey(gs, groupName) && Lookup(gs, groupName).value.FailedGroup? ==>
      r == Err(Raise(FailedToConnect(groupName, Lookup(gs, groupName).value.error)))
    ensures r.Ok? <==> HasKey(gs, groupName) && Lookup(gs, groupName).value.ConnectedGroup?
    ensures r.Ok? ==> r.value == Lookup(gs, groupName).value.tools
  {
    var group: Option<GroupState> := Lookup(gs, groupName);
    match group
    case None => Err(Raise("Not connected to group: " + groupName))
    case Some(FailedGroup(_, _, e)) => Err(Raise(FailedToConnect(groupName, e)))
    case Some(ConnectedGroup(_, _, tools)) => Ok(tools)
  }

  /** `callTool`: the guards of `listTools`, then the named group's client is sent
      `{name: toolName, arguments: args}` and its answer is handed back verbatim. */
  function Call(gs: seq<(string, GroupState)>, groupName: string, toolName: string, args: Fields, upstream: Upstream)
    : (r: Result<ToolResponse, Cause>)
    ensures Tools(gs, groupName).Err? ==> r == Err(Tools(gs, groupName).error)
    ensures Tools(gs, groupName).Ok? ==> r == upstream(groupName, ToolRequest(toolName, args))
  {
    var group: Option<GroupState> := Lookup(gs, groupName);
    match group
    case None => Err(Raise("Not connected to group: " + groupName))
    case Some(FailedGroup(_, _, e)) => Err(Raise(FailedToConnect(groupName, e)))
    case Some(ConnectedGroup(_, _, _)) => upstream(groupName, ToolRequest(toolName, args))
  }

  /** What a record stored for a name makes `listTools` of that name say, and that the
      other names are not affected; after a delete the name is no longer connected. */
  lemma StoredRecordListed(gs: seq<(string, GroupState)>, groupName: string, g: GroupState, other: string)
    requires other != groupName
    ensures g.ConnectedGroup? ==> Tools(Set(gs, groupName, g), groupName) == Ok(g.tools)
    ensures g.FailedGroup? ==> Tools(Set(gs, groupName, g), groupName) == Err(Raise(FailedToConnect(groupName, g.error)))
    ensures Tools(Set(gs, groupName, g), other) == Tools(gs, other)
    ensures Tools(Remove(gs, groupName), groupName) == Err(Raise("Not connected to group: " + groupName))
    ensures Tools(Remove(gs, groupName), other) == Tools(gs, other)
  {
  }

  /** A disconnect of one entry: a connected one closes its client and then its
      transport, a failed one closes nothing. */
  function Effect(groupName: string, g: GroupState, outcome: Close -> Outcome<Cause>): (r: (seq<Close>, Option<Cause>))
    ensures g.FailedGroup? ==> r == ([], None)
    ensures g.ConnectedGroup? ==> r == CloseBoth(groupName, outcome)
  {
    if g.ConnectedGroup? then CloseBoth(groupName, outcome) else ([], None)
  }

  function EffectOf(outcome: Close -> Outcome<Cause>): (string, GroupState) -> (seq<Close>, Option<Cause>) {
    (n: string, g: GroupState) => Effect(n, g, outcome)
  }

  class ModularMcpClient {
    /** The `groups` Map. */
    var groups: seq<(string, GroupState)>
    /** The `close` calls made on clients and transports, in order. */
    var closeCalls: seq<Close>
    /** `options.oauthTimeoutMs`, handed on to every connect. */
    const oauthTimeoutMs: Option<nat>

    predicate Valid()
      reads this
    {
      DistinctKeys(groups)
    }

    constructor(oauthTimeoutMs: Option<nat>)
      ensures groups == [] && closeCalls == [] && this.oauthTimeoutMs == oauthTimeoutMs && Valid()
    {
      groups := [];
      closeCalls := [];
      this.oauthTimeoutMs := oauthTimeoutMs;
    }

    /** `connect`: nothing happens for a name already present; otherwise `connected` is
        how connecting and listing the tools ended. A success appends a connected record;
        a failure propagates and stores nothing. */
    method Connect(groupName: string, config: McpServerConfig, connected: Result<seq<ToolInfo>, Cause>)
      returns (r: Outcome<Cause>)
      requires Valid()
      modifies this
      ensures Valid() && closeCalls == old(closeCalls)
      ensures HasKey(old(groups), groupName) ==> r == Pass && groups == old(groups)
      ensures !HasKey(old(groups), groupName) && connected.Ok? ==>
        r == Pass && groups == old(groups) + [(groupName, ConnectedGroup(groupName, config.description, connected.value))]
      ensures !HasKey(old(groups), groupName) && connected.Err? ==> r == Fail(connected.error) && groups == old(groups)
    {
      if HasKey(groups, groupName) {
        return Pass;
      }
      if connected.Err? {
        return Fail(connected.error);
      }
      SetAbsentAppends(groups, groupName, ConnectedGroup(groupName, config.description, connected.value));
      groups := Set(groups, groupName, ConnectedGroup(groupName, config.description, connected.value));
      return Pass;
    }

    /** `recordFailedConnection`: stores, or overwrites in place, a failed record; `stack`
        is the stack of the `Error` made for a cause that is not one. */
    method RecordFailedConnection(groupName: string, config: McpServerConfig, cause: Cause, stack: Option<string>)
      requires Valid()
      modifies this
      ensures Valid() && closeCalls == old(closeCalls)
      ensures groups == Set(old(groups), groupName, FailedGroup(groupName, config.description, AsError(cause, stack)))
    {
      groups := Set(groups, groupName, FailedGroup(groupName, config.description, AsError(cause, stack)));
    }

    function ListGroups(): seq<McpGroupInfo>
      reads this
    {
      ConnectedInfos(groups)
    }

    function ListFailedGroups(): seq<FailedGroupInfo>
      reads this
    {
      FailedInfos(groups)
    }

    function ListTools(groupName: string): Result<seq<ToolInfo>, Cause>
      reads this
    {
      Tools(groups, groupName)
    }

    function CallTool(groupName: string, toolName: string, args: Fields, upstream: Upstream): Result<ToolResponse, Cause>
      reads this
    {
      Call(groups, groupName, toolName, args, upstream)
    }

    /** `disconnect`: nothing for an absent name; otherwise the entry's closes are made
        and the entry is deleted unless one of them raised, which propagates. */
    method Disconnect(groupName: string, outcome: Close -> Outcome<Cause>) returns (r: Outcome<Cause>)
      requires Valid()
      modifies this
      ensures Valid()
      ensures !HasKey(old(groups), groupName) ==> r == Pass && groups == old(groups) && closeCalls == old(closeCalls)
      ensures HasKey(old(groups), groupName) ==>
        var e := Effect(groupName, Lookup(old(groups), groupName).value, outcome);
        closeCalls == old(closeCalls) + e.0 &&
        (e.1.None? ==> r == Pass && groups == Remove(old(groups), groupName)) &&
        (e.1.Some? ==> r == Fail(e.1.value) && groups == old(groups))
    {
      var group := Lookup(groups, groupName);
      if group.None? {
        return Pass;
      }
      var e := Effect(groupName, group.value, outcome);
      closeCalls := closeCalls + e.0;
      if e.1.Some? {
        return Fail(e.1.value);
      }
      groups := Remove(groups, groupName);
      return Pass;
    }

    /** `disconnectAll`: every entry present at the start is disconnected; exactly those
        whose disconnect raised stay, in their order. */
    method DisconnectAll(outcome: Close -> Outcome<Cause>)
      requires Valid()
      modifies this
      ensures Valid()
      ensures groups == Survivors(old(groups), EffectOf(outcome))
      ensures closeCalls == old(closeCalls) + CloseCalls(old(groups), EffectOf(outcome))
    {
      ghost var start, calls := groups, closeCalls;
      var names := Keys(groups);
      var i := 0;
      while i < |names|
        invariant 0 <= i <= |names| == |start|
        invariant forall j :: 0 <= j < |names| ==> names[j] == start[j].0
        invariant DistinctKeys(start)
        invariant groups == Survivors(start[..i], EffectOf(outcome)) + start[i..]
        invariant closeCalls == calls + CloseCalls(start[..i], EffectOf(outcome))
        invariant Valid()
      {
        DisconnectNext(start, calls, i, names[i], outcome);
        i := i + 1;
      }
      assert start[..i] == start;
    }

    /** One step of `disconnectAll`: the next entry of `start` is disconnected. */
    method DisconnectNext(ghost start: seq<(string, GroupState)>, ghost calls: seq<Close>, i: nat, name: string,
                          outcome: Close -> Outcome<Cause>)
      requires DistinctKeys(start) && i < |start| && name == start[i].0
      requires groups == Survivors(start[..i], EffectOf(outcome)) + start[i..]
      requires closeCalls == calls + CloseCalls(start[..i], EffectOf(outcome))
      modifies this
      ensures groups == Survivors(start[..i + 1], EffectOf(outcome)) + start[i + 1..]
      ensures closeCalls == calls + CloseCalls(start[..i + 1], EffectOf(outcome))
      ensures Valid()
    {
      NextDisconnect(start, i, EffectOf(outcome));
      NextSurvivors(start, i, EffectOf(outcome));
      assert EffectOf(outcome)(name, start[i].1) == Effect(name, start[i].1, outcome);
      var _ := Disconnect(name, outcome);
    }
  }
}
