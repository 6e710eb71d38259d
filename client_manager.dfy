/** `ClientManager` (src/client-manager.ts): the older group orchestrator, used by the
    server. Its `groups` Map holds one record per connected group; there are no failed
    records. `getTransport` comes from a module that is not part of this model, so
    connecting and listing the tools is one oracle, as are `client.callTool` and the
    `close` calls. */
module ClientManager {
  import opened Wrappers
  import opened Json
  import opened LegacyTypes
  import opened Groups
  import ProxyClient

  datatype GroupRecord = GroupRecord(name: string, description: string, tools: seq<ToolInfo>)

  /** `listGroups` over the map's entries: every record, in insertion order. */
  function Infos(gs: seq<(string, GroupRecord)>): (r: seq<McpGroupInfo>)
    ensures |r| == |gs|
    ensures forall i :: 0 <= i < |gs| ==> r[i] == McpGroupInfo(gs[i].1.name, gs[i].1.description)
  {
    if gs == [] then [] else [McpGroupInfo(gs[0].1.name, gs[0].1.description)] + Infos(gs[1..])
  }

  /** `listTools`: raises for an absent name, else returns the stored tools. */
  function Tools(gs: seq<(string, GroupRecord)>, groupName: string): (r: Result<seq<ToolInfo>, Cause>)
    ensures r.Ok? <==> HasKey(gs, groupName)
    ensures r.Err? ==> r.error == Raise("Not connected to group: " + groupName)
    ensures r.Ok? ==> r.value == Lookup(gs, groupName).value.tools
  {
    var group: Option<GroupRecord> := Lookup(gs, groupName);
    match group
    case None => Err(Raise("Not connected to group: " + groupName))
    case Some(g) => Ok(g.tools)
  }

  /** `callTool`: the absent-name guard, then the named group's client is sent
      `{name: toolName, arguments: args}` and its answer is handed back verbatim. */
  function Call(gs: seq<(string, GroupRecord)>, groupName: string, toolName: string, args: Fields,
                upstream: ProxyClient.Upstream)
    : (r: Result<ProxyClient.ToolResponse, Cause>)
    ensures !HasKey(gs, groupName) ==> r == Err(Raise("Not connected to group: " + groupName))
    ensures HasKey(gs, groupName) ==> r == upstream(groupName, ProxyClient.ToolRequest(toolName, args))
  {
    var group: Option<GroupRecord> := Lookup(gs, groupName);
    match group
    case None => Err(Raise("Not connected to group: " + groupName))
    case Some(_) => upstream(groupName, ProxyClient.ToolRequest(toolName, args))
  }

  /** Every record closes its client and then its transport. */
  function EffectOf(outcome: Close -> Outcome<Cause>): (string, GroupRecord) -> (seq<Close>, Option<Cause>) {
    (n: string, g: GroupRecord) => CloseBoth(n, outcome)
  }

  /** Storing a record makes `listTools` of its name return its tools and leaves other
      names alone; after a delete the name is no longer connected. */
  lemma StoredRecordListed(gs: seq<(string, GroupRecord)>, groupName: string, g: GroupRecord, other: string)
    requires other != groupName
    ensures Tools(Set(gs, groupName, g), groupName) == Ok(g.tools)
    ensures Tools(Set(gs, groupName, g), other) == Tools(gs, other)
    ensures Tools(Remove(gs, groupName), groupName).Err?
    ensures Tools(Remove(gs, groupName), other) == Tools(gs, other)
  {
  }

  class ClientManager {
    /** The `groups` Map. */
    var groups: seq<(string, GroupRecord)>
    /** The `close` calls made on clients and transports, in order. */
    var closeCalls: seq<Close>

    predicate Valid()
      reads this
    {
      DistinctKeys(groups)
    }

    constructor()
      ensures groups == [] && closeCalls == [] && Valid()
    {
      groups := [];
      closeCalls := [];
    }

    /** `connect`: nothing for a name already present; otherwise `connected` is how
        `client.connect` and `client.listTools` ended. A success appends the record, a
        failure propagates and leaves the map as it was. */
    method Connect(groupName: string, config: LegacyServerConfig, connected: Result<seq<ToolInfo>, Cause>)
      returns (r: Outcome<Cause>)
      requires Valid()
      modifies this
      ensures Valid() && closeCalls == old(closeCalls)
      ensures HasKey(old(groups), groupName) ==> r == Pass && groups == old(groups)
      ensures !HasKey(old(groups), groupName) && connected.Ok? ==>
        r == Pass && groups == old(groups) + [(groupName, GroupRecord(groupName, config.description, connected.value))]
      ensures !HasKey(old(groups), groupName) && connected.Err? ==> r == Fail(connected.error) && groups == old(groups)
    {
      if HasKey(groups, groupName) {
        return Pass;
      }
      if connected.Err? {
        return Fail(connected.error);
      }
      SetAbsentAppends(groups, groupName, GroupRecord(groupName, config.description, connected.value));
      groups := Set(groups, groupName, GroupRecord(groupName, config.description, connected.value));
      return Pass;
    }

    function ListGroups(): seq<McpGroupInfo>
      reads this
    {
      Infos(groups)
    }

    function ListTools(groupName: string): Result<seq<ToolInfo>, Cause>
      reads this
    {
      Tools(groups, groupName)
    }

    function CallTool(groupName: string, toolName: string, args: Fields, upstream: ProxyClient.Upstream)
      : Result<ProxyClient.ToolResponse, Cause>
      reads this
    {
      Call(groups, groupName, toolName, args, upstream)
    }

    /** `disconnect`: nothing for an absent name; otherwise the client and then the
        transport are closed and the record is deleted, unless a close raised, which
        propagates and keeps the record. */
    method Disconnect(groupName: string, outcome: Close -> Outcome<Cause>) returns (r: Outcome<Cause>)
      requires Valid()
      modifies this
      ensures Valid()
      ensures !HasKey(old(groups), groupName) ==> r == Pass && groups == old(groups) && closeCalls == old(closeCalls)
      ensures HasKey(old(groups), groupName) ==>
        var e := CloseBoth(groupName, outcome);
        closeCalls == old(closeCalls) + e.0 &&
        (e.1.None? ==> r == Pass && groups == Remove(old(groups), groupName)) &&
        (e.1.Some? ==> r == Fail(e.1.value) && groups == old(groups))
    {
      if !HasKey(groups, groupName) {
        return Pass;
      }
      var e := CloseBoth(groupName, outcome);
      closeCalls := closeCalls + e.0;
      if e.1.Some? {
        return Fail(e.1.value);
      }
      groups := Remove(groups, groupName);
      return Pass;
    }

    /** `disconnectAll`: every record present at the start is disconnected; exactly those
        whose close raised stay, in their order. */
    method DisconnectAll(outcome: Close -> Outcome<Cause>)
      requires Valid()
      modifies this
      ensures Valid()
      ensures groups == Survivors(old(groups), EffectOf(outcome))
      ensures closeCalls == old(closeCalls) + CloseCalls(old(groups), EffectOf(outcome))
    {
      ghost var start, calls := groups, closeCalls;
      var names := Keys(groups);
      var i := 0;
      while i < |names|
        invariant 0 <= i <= |names| == |start|
        invariant forall j :: 0 <= j < |names| ==> names[j] == start[j].0
        invariant DistinctKeys(start)
        invariant groups == Survivors(start[..i], EffectOf(outcome)) + start[i..]
        invariant closeCalls == calls + CloseCalls(start[..i], EffectOf(outcome))
        invariant Valid()
      {
        DisconnectNext(start, calls, i, names[i], outcome);
        i := i + 1;
      }
      assert start[..i] == start;
    }

    /** One step of `disconnectAll`: the next record of `start` is disconnected. */
    method DisconnectNext(ghost start: seq<(string, GroupRecord)>, ghost calls: seq<Close>, i: nat, name: string,
                          outcome: Close -> Outcome<Cause>)
      requires DistinctKeys(start) && i < |start| && name == start[i].0
      requires groups == Survivors(start[..i], EffectOf(outcome)) + start[i..]
      requires closeCalls == calls + CloseCalls(start[..i], EffectOf(outcome))
      modifies this
      ensures groups == Survivors(start[..i + 1], EffectOf(outcome)) + start[i + 1..]
      ensures closeCalls == calls + CloseCalls(start[..i + 1], EffectOf(outcome))
      ensures Valid()
    {
      NextDisconnect(start, i, EffectOf(outcome));
      NextSurvivors(start, i, EffectOf(outcome));
      assert EffectOf(outcome)(name, start[i].1) == CloseBoth(name, outcome);
      var _ := Disconnect(name, outcome);
    }
  }
}
