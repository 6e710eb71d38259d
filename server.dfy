/** The MCP server of src/server.ts: it connects every configured group at start-up and
    then answers two requests over the `ClientManager`. `ListTools` advertises exactly two
    tools, `get-modular-tools` and `call-modular-tool`; `CallTool` dispatches on the tool
    name. Validation issues are what the schema library reports and are a parameter;
    `JSON.stringify` is not modelled: a text item holds the JSON value it would print. */
module Server {
  import opened Wrappers
  import opened Json
  import opened LegacyTypes
  import opened Groups
  import Schema
  import ProxyClient
  import CM = ClientManager

  const GetToolsName := "get-modular-tools"
  const CallToolName := "call-modular-tool"

  /** The description of an advertised tool. The fixed texts are kept symbolic, so that
      reasoning about an answer never unfolds them; `Text` spells them out. */
  datatype Description = GetToolsText(groupsDescription: string) | CallToolText

  /** The description of `get-modular-tools` is a fixed introduction followed by the
      groups; that of `call-modular-tool` is fixed. */
  function Text(d: Description): string {
    match d
    case GetToolsText(groups) =>
      "modular-mcp manages multiple MCP servers as organized groups, providing only the necessary group's tool descriptions to the LLM on demand instead of overwhelming it with all tool descriptions at once.\n\nUse this tool to retrieve available tools in a specific group, then use call-modular-tool to execute them.\n\nAvailable groups:\n"
      + groups
    case CallToolText =>
      "Execute a tool from a specific MCP group. Proxies the call to the appropriate upstream MCP server. Use get-modular-tools first to discover available tools and their input schemas in the specified group, then use this tool to execute them. This maintains a clean separation between discovery (context-efficient) and execution phases, enabling effective management of large tool collections across multiple MCP servers."
  }

  /** `Array.prototype.join`. */
  function Join(parts: seq<string>, sep: string): string {
    if |parts| == 0 then "" else if |parts| == 1 then parts[0] else parts[0] + sep + Join(parts[1..], sep)
  }

  /** `s.split(c)` for a single character. */
  function Split(s: string, c: char): (r: seq<string>)
    ensures |r| >= 1
  {
    if s == [] then [""]
    else if s[0] == c then [""] + Split(s[1..], c)
    else var rest := Split(s[1..], c); [[s[0]] + rest[0]] + rest[1..]
  }

  lemma {:induction false} SplitWord(w: string, c: char, rest: string)
    requires c !in w
    ensures Split(w + [c] + rest, c) == [w] + Split(rest, c)
    ensures Split(w, c) == [w]
  {
    if w != [] {
      assert (w + [c] + rest)[1..] == w[1..] + [c] + rest;
      SplitWord(w[1..], c, rest);
      assert [w[0]] + w[1..] == w;
    }
  }

  /** Joined lines without the separator in them split back into the same lines. */
  lemma {:induction false} SplitJoin(parts: seq<string>, c: char)
    requires |parts| >= 1 && forall i :: 0 <= i < |parts| ==> c !in parts[i]
    ensures Split(Join(parts, [c]), c) == parts
  {
    if |parts| == 1 {
      SplitWord(parts[0], c, "");
    } else {
      SplitJoin(parts[1..], c);
      SplitWord(parts[0], c, Join(parts[1..], [c]));
    }
  }

  /** `- name: description`. */
  function GroupLine(g: McpGroupInfo): string {
    "- " + g.name + ": " + g.description
  }

  function GroupLines(groups: seq<McpGroupInfo>): (r: seq<string>)
    ensures |r| == |groups| && forall i :: 0 <= i < |groups| ==> r[i] == GroupLine(groups[i])
  {
    if groups == [] then [] else [GroupLine(groups[0])] + GroupLines(groups[1..])
  }

  function Names(groups: seq<McpGroupInfo>): (r: seq<string>)
    ensures |r| == |groups| && forall i :: 0 <= i < |groups| ==> r[i] == groups[i].name
  {
    if groups == [] then [] else [groups[0].name] + Names(groups[1..])
  }

  /** The groups part of the `get-modular-tools` description. */
  function GroupsDescription(groups: seq<McpGroupInfo>): string {
    Join(GroupLines(groups), "\n")
  }

  /** The groups part lists one `- name: description` line per group, in order: when no
      name or description holds a line break, splitting it at line breaks gives back
      exactly those lines. */
  lemma GroupsDescribedLineByLine(groups: seq<McpGroupInfo>)
    requires |groups| >= 1
    requires forall i :: 0 <= i < |groups| ==> '\n' !in groups[i].name && '\n' !in groups[i].description
    ensures Split(GroupsDescription(groups), '\n') == GroupLines(groups)
  {
    var lines := GroupLines(groups);
    forall i | 0 <= i < |lines|
      ensures '\n' !in lines[i]
    {
      LineWithoutBreak(groups[i]);
    }
    SplitJoin(lines, '\n');
  }

  lemma LineWithoutBreak(g: McpGroupInfo)
    requires '\n' !in g.name && '\n' !in g.description
    ensures '\n' !in GroupLine(g)
  {
    assert GroupLine(g) == "- " + g.name + ": " + g.description;
    assert '\n' !in "- " && '\n' !in ": ";
  }

  datatype AdvertisedTool = AdvertisedTool(name: string, description: Description, inputSchema: Json)

  /** The value at a path of property names, when every step is an object that has it. */
  function At(j: Json, path: seq<string>): Option<Json>
    decreases |path|
  {
    if path == [] then Some(j)
    else if j.JObj? && Lookup(j.fields, path[0]).Some? then At(Lookup(j.fields, path[0]).value, path[1..])
    else None
  }

  /** A two-step path. */
  lemma {:induction false} AtTwo(j: Json, a: string, b: string)
    ensures At(j, [a, b]) ==
      if j.JObj? && Lookup(j.fields, a).Some? then At(Lookup(j.fields, a).value, [b]) else None
  {
    assert [a, b][1..] == [b];
  }

  /** A three-step path. */
  lemma {:induction false} AtThree(j: Json, a: string, b: string, c: string)
    ensures At(j, [a, b, c]) ==
      if j.JObj? && Lookup(j.fields, a).Some? then At(Lookup(j.fields, a).value, [b, c]) else None
  {
    assert [a, b, c][1..] == [b, c];
  }

  lemma LookupThree(fields: Fields, k: string)
    requires |fields| == 3
    ensures Lookup(fields, k) ==
      if k == fields[0].0 then Some(fields[0].1) else if k == fields[1].0 then Some(fields[1].1)
      else if k == fields[2].0 then Some(fields[2].1) else None
  {
    assert fields == [fields[0], fields[1], fields[2]] + [];
    Schema.LookupHead(fields[0], fields[1], fields[2], [], k);
  }

  lemma LookupTwo(fields: Fields, k: string)
    requires |fields| == 2
    ensures Lookup(fields, k) ==
      if k == fields[0].0 then Some(fields[0].1) else if k == fields[1].0 then Some(fields[1].1) else None
  {
    assert fields[1..][1..] == [];
  }

  function StringProperty(description: string): Json {
    JObj([("type", JStr("string")), ("description", JStr(description))])
  }

  function GroupProperty(description: string, names: seq<string>): (j: Json)
    ensures j.JObj? && Lookup(j.fields, "enum") == Some(StringArray(names))
  {
    var fields := [("type", JStr("string")), ("description", JStr(description)), ("enum", StringArray(names))];
    LookupThree(fields, "enum");
    JObj(fields)
  }

  /** The input schema of `get-modular-tools`: `group` takes one of `names` and is
      required. */
  function GetToolsSchema(names: seq<string>): (j: Json)
    ensures At(j, ["properties", "group", "enum"]) == Some(StringArray(names))
    ensures At(j, ["required"]) == Some(StringArray(["group"]))
  {
    var group := GroupProperty("The name of the MCP group to get tools from", names);
    var properties := JObj([("group", group)]);
    var fields := [("type", JStr("object")), ("properties", properties), ("required", StringArray(["group"]))];
    LookupThree(fields, "properties");
    LookupThree(fields, "required");
    var j := JObj(fields);
    AtThree(j, "properties", "group", "enum");
    AtTwo(properties, "group", "enum");
    assert ["required"][1..] == [];
    j
  }

  /** The input schema of `call-modular-tool`: `group` takes one of `names`; `group` and
      `name` are required, `args` is not. */
  function CallToolSchema(names: seq<string>): (j: Json)
    ensures At(j, ["properties", "group", "enum"]) == Some(StringArray(names))
    ensures At(j, ["required"]) == Some(StringArray(["group", "name"]))
  {
    var group := GroupProperty("The name of the MCP group containing the tool", names);
    var args := JObj([("type", JStr("object")), ("description", JStr("Arguments to pass to the tool")),
                      ("additionalProperties", JBool(true))]);
    var properties := JObj([("group", group), ("name", StringProperty("The name of the tool to execute")), ("args", args)]);
    var fields := [("type", JStr("object")), ("properties", properties), ("required", StringArray(["group", "name"]))];
    LookupThree(fields, "properties");
    LookupThree(fields, "required");
    var j := JObj(fields);
    AtThree(j, "properties", "group", "enum");
    AtTwo(properties, "group", "enum");
    assert ["required"][1..] == [];
    j
  }

  /** The `ListTools` answer for the groups `listGroups` returned: exactly the two tools,
      both offering the listed names for `group`. */
  function ListToolsResponse(groups: seq<McpGroupInfo>): (r: seq<AdvertisedTool>)
    ensures |r| == 2 && r[0].name == GetToolsName && r[1].name == CallToolName
    ensures r[0].description == GetToolsText(GroupsDescription(groups)) && r[1].description == CallToolText
    ensures r[0].inputSchema == GetToolsSchema(Names(groups)) && r[1].inputSchema == CallToolSchema(Names(groups))
  {
    [ AdvertisedTool(GetToolsName, GetToolsText(GroupsDescription(groups)), GetToolsSchema(Names(groups))),
      AdvertisedTool(CallToolName, CallToolText, CallToolSchema(Names(groups))) ]
  }

  /** An item of a `CallTool` answer: a text item holding the JSON value it prints, or an
      item the upstream server sent. */
  datatype Content = TextJson(value: Json) | Upstream(item: Json)

  datatype CallResult = CallResult(content: seq<Content>, isError: Option<bool>)

  /** `getToolsSchema`: an object with a string `group`; other properties are ignored. */
  function ParseGetTools(args: Option<Fields>): (r: Option<string>)
    ensures r.Some? <==> args.Some? && Lookup(args.value, "group").Some? && Lookup(args.value, "group").value.JStr?
    ensures r.Some? ==> Lookup(args.value, "group") == Some(JStr(r.value))
  {
    if args.Some? && Lookup(args.value, "group").Some? && Lookup(args.value, "group").value.JStr?
    then Some(Lookup(args.value, "group").value.s) else None
  }

  datatype ToolCall = ToolCall(group: string, name: string, args: Fields)

  /** `callToolSchema`: string `group` and `name` and a record `args`, all three
      required. As for every `v.record`, an array is accepted as the record of its
      indices. */
  function ParseCallTool(args: Option<Fields>): (r: Option<ToolCall>)
    ensures r.Some? <==>
      args.Some? &&
      Lookup(args.value, "group").Some? && Lookup(args.value, "group").value.JStr? &&
      Lookup(args.value, "name").Some? && Lookup(args.value, "name").value.JStr? &&
      Lookup(args.value, "args").Some? && Entries(Lookup(args.value, "args").value).Some?
    ensures r.Some? ==>
      Lookup(args.value, "group") == Some(JStr(r.value.group)) && Lookup(args.value, "name") == Some(JStr(r.value.name)) &&
      Entries(Lookup(args.value, "args").value) == Some(r.value.args)
  {
    if args.None? then None
    else
      var g, n, a := Lookup(args.value, "group"), Lookup(args.value, "name"), Lookup(args.value, "args");
      if g.Some? && g.value.JStr? && n.Some? && n.value.JStr? && a.Some? && Entries(a.value).Some?
      then Some(ToolCall(g.value.s, n.value.s, Entries(a.value).value)) else None
  }

  /** An array `args` is forwarded as the record of its indices. */
  lemma ArrayArgsForwarded(group: string, name: string, x: Json)
    ensures ParseCallTool(Some([("group", JStr(group)), ("name", JStr(name)), ("args", JArr([x]))]))
      == Some(ToolCall(group, name, [("0", x)]))
  {
    var args: Fields := [("group", JStr(group)), ("name", JStr(name)), ("args", JArr([x]))];
    LookupThree(args, "group");
    LookupThree(args, "name");
    LookupThree(args, "args");
    assert IndexedEntries([x], 0) == [(NatToString(0), x)] && NatToString(0) == "0";
  }

  /** The advertised `call-modular-tool` schema does not require `args`, but the handler
      rejects a call without it. */
  lemma ArgsRequiredOnlyByHandler(group: string, name: string)
    ensures At(CallToolSchema([]), ["required"]) == Some(StringArray(["group", "name"]))
    ensures ParseCallTool(Some([("group", JStr(group)), ("name", JStr(name))])).None?
  {
    var args: Fields := [("group", JStr(group)), ("name", JStr(name))];
    LookupTwo(args, "args");
  }

  /** `{success: false, error}`. */
  function Failure(error: Json): Json {
    JObj([("success", JBool(false)), ("error", error)])
  }

  /** An input schema as `get-modular-tools` returns it: without `$schema`. */
  function StripSchema(schema: Fields): (r: Fields)
    ensures !HasKey(r, "$schema")
    ensures forall k :: k != "$schema" ==> Lookup(r, k) == Lookup(schema, k)
  {
    Remove(schema, "$schema")
  }

  /** A tool as `get-modular-tools` lists it; an absent description is left out, as
      `JSON.stringify` drops an undefined property. */
  function ToolEntry(t: ToolInfo): (j: Json)
    ensures j.JObj? && Lookup(j.fields, "name") == Some(JStr(t.name))
    ensures Lookup(j.fields, "description") == if t.description.Some? then Some(JStr(t.description.value)) else None
    ensures Lookup(j.fields, "inputSchema") == Some(JObj(StripSchema(t.inputSchema)))
  {
    var schema := ("inputSchema", JObj(StripSchema(t.inputSchema)));
    if t.description.Some? then
      var fields := [("name", JStr(t.name)), ("description", JStr(t.description.value)), schema];
      LookupThree(fields, "name");
      LookupThree(fields, "description");
      LookupThree(fields, "inputSchema");
      JObj(fields)
    else
      var fields := [("name", JStr(t.name)), schema];
      LookupTwo(fields, "name");
      LookupTwo(fields, "description");
      LookupTwo(fields, "inputSchema");
      JObj(fields)
  }

  function ToolEntries(tools: seq<ToolInfo>): (r: seq<Json>)
    ensures |r| == |tools| && forall i :: 0 <= i < |tools| ==> r[i] == ToolEntry(tools[i])
  {
    if tools == [] then [] else [ToolEntry(tools[0])] + ToolEntries(tools[1..])
  }

  function UpstreamItems(items: seq<Json>): (r: seq<Content>)
    ensures |r| == |items| && forall i :: 0 <= i < |items| ==> r[i] == Upstream(items[i])
  {
    if items == [] then [] else [Upstream(items[0])] + UpstreamItems(items[1..])
  }

  /** The `CallTool` handler over the manager's map `gs`. `issues` is what validation
      reports for invalid arguments; `upstream` is how each group's client answers the
      request `call-modular-tool` forwards. An `Err` is an exception of the handler. */
  function HandleCall(gs: seq<(string, CM.GroupRecord)>, name: string, args: Option<Fields>, issues: Json,
                      upstream: ProxyClient.Upstream): (r: Result<CallResult, Cause>)
    ensures name != GetToolsName && name != CallToolName ==> r == Err(Raise("Unknown tool: " + name))
    ensures name == GetToolsName && ParseGetTools(args).None? ==> r == Ok(CallResult([TextJson(Failure(issues))], Some(true)))
    ensures name == GetToolsName && ParseGetTools(args).Some? ==>
      var tools := CM.Tools(gs, ParseGetTools(args).value);
      r == if tools.Err? then Err(tools.error) else Ok(CallResult([TextJson(JArr(ToolEntries(tools.value)))], None))
    ensures name == CallToolName && ParseCallTool(args).None? ==> r == Ok(CallResult([TextJson(Failure(issues))], Some(true)))
    ensures name == CallToolName && ParseCallTool(args).Some? ==>
      var call := ParseCallTool(args).value;
      var answer := CM.Call(gs, call.group, call.name, call.args, upstream);
      r == if answer.Ok? then Ok(CallResult(UpstreamItems(answer.value.content), answer.value.isError))
           else Ok(CallResult([TextJson(Failure(JStr(MessageOf(answer.error))))], Some(true)))
  {
    if name == GetToolsName then
      match ParseGetTools(args)
      case None => Ok(CallResult([TextJson(Failure(issues))], Some(true)))
      case Some(group) =>
        match CM.Tools(gs, group)
        case Err(e) => Err(e)
        case Ok(tools) => Ok(CallResult([TextJson(JArr(ToolEntries(tools)))], None))
    else if name == CallToolName then
      match ParseCallTool(args)
      case None => Ok(CallResult([TextJson(Failure(issues))], Some(true)))
      case Some(call) =>
        match CM.Call(gs, call.group, call.name, call.args, upstream)
        case Ok(answer) => Ok(CallResult(UpstreamItems(answer.content), answer.isError))
        case Err(e) => Ok(CallResult([TextJson(Failure(JStr(MessageOf(e))))], Some(true)))
    else Err(Raise("Unknown tool: " + name))
  }

  /** A valid `call-modular-tool` call for a connected group hands the group's client
      exactly the tool name and the parsed arguments, and answers with the client's items
      unchanged; an array `args` reaches the client as the record of its indices. */
  lemma ArrayArgsReachUpstream(gs: seq<(string, CM.GroupRecord)>, group: string, name: string, x: Json, issues: Json,
                               upstream: ProxyClient.Upstream)
    requires HasKey(gs, group) && upstream(group, ProxyClient.ToolRequest(name, [("0", x)])).Ok?
    ensures var answer := upstream(group, ProxyClient.ToolRequest(name, [("0", x)])).value;
      HandleCall(gs, CallToolName, Some([("group", JStr(group)), ("name", JStr(name)), ("args", JArr([x]))]), issues, upstream)
        == Ok(CallResult(UpstreamItems(answer.content), answer.isError))
  {
    ArrayArgsForwarded(group, name, x);
  }

  /** A call of `call-modular-tool` never raises: a guard or upstream error becomes an
      error payload. A call of `get-modular-tools` for a group that is not connected
      raises "Not connected to group". */
  lemma HandlerErrors(gs: seq<(string, CM.GroupRecord)>, args: Option<Fields>, issues: Json,
                      upstream: ProxyClient.Upstream)
    ensures HandleCall(gs, CallToolName, args, issues, upstream).Ok?
    ensures ParseGetTools(args).Some? && !HasKey(gs, ParseGetTools(args).value) ==>
      HandleCall(gs, GetToolsName, args, issues, upstream) == Err(Raise("Not connected to group: " + ParseGetTools(args).value))
  {
  }

  /** The groups a start-up sweep over `entries` stores: the entries whose connect
      succeeded (`connected` says how connecting each name ends), in order. */
  function Connected(entries: seq<(string, LegacyServerConfig)>, connected: string -> Result<seq<ToolInfo>, Cause>)
    : (r: seq<(string, CM.GroupRecord)>)
    ensures |r| <= |entries|
  {
    if entries == [] then []
    else
      var last := entries[|entries| - 1];
      Connected(entries[..|entries| - 1], connected) +
        (if connected(last.0).Ok? then [(last.0, CM.GroupRecord(last.0, last.1.description, connected(last.0).value))] else [])
  }

  /** The first failure of the sweep, in entry order. */
  function FirstFailure(entries: seq<(string, LegacyServerConfig)>, connected: string -> Result<seq<ToolInfo>, Cause>)
    : (r: Option<Cause>)
    ensures r.None? <==> forall i :: 0 <= i < |entries| ==> connected(entries[i].0).Ok?
  {
    if entries == [] then None
    else
      var last := entries[|entries| - 1];
      var before := FirstFailure(entries[..|entries| - 1], connected);
      assert forall i :: 0 <= i < |entries| - 1 ==> entries[..|entries| - 1][i] == entries[i];
      if before.Some? then before
      else if connected(last.0).Err? then Some(connected(last.0).error) else None
  }

  /** Only names of the entries are stored. */
  lemma {:induction false} ConnectedKeys(entries: seq<(string, LegacyServerConfig)>, connected: string -> Result<seq<ToolInfo>, Cause>, k: string)
    requires HasKey(Connected(entries, connected), k)
    ensures HasKey(entries, k)
  {
    var init := entries[..|entries| - 1];
    var last := entries[|entries| - 1];
    var tail := if connected(last.0).Ok? then [(last.0, CM.GroupRecord(last.0, last.1.description, connected(last.0).value))] else [];
    assert entries == init + [last];
    if HasKey(Connected(init, connected), k) {
      ConnectedKeys(init, connected, k);
      PrefixKey(init, [last], k);
    } else {
      LookupPast(Connected(init, connected), tail, k);
      KeyInTail(init, [last], k);
    }
  }

  /** `createServer`'s start-up sweep: every entry of the (fresh) manager is connected;
      the sweep fails if any connect failed, with the first failure in entry order, while
      every group that did connect stays stored. */
  method StartUp(entries: seq<(string, LegacyServerConfig)>, connected: string -> Result<seq<ToolInfo>, Cause>)
    returns (manager: CM.ClientManager, r: Outcome<Cause>)
    requires DistinctKeys(entries)
    ensures fresh(manager) && manager.Valid()
    ensures manager.groups == Connected(entries, connected)
    ensures r == if FirstFailure(entries, connected).Some? then Fail(FirstFailure(entries, connected).value) else Pass
  {
    manager := new CM.ClientManager();
    r := Pass;
    var i := 0;
    while i < |entries|
      invariant 0 <= i <= |entries|
      invariant manager.Valid() && fresh(manager)
      invariant manager.groups == Connected(entries[..i], connected)
      invariant r == if FirstFailure(entries[..i], connected).Some? then Fail(FirstFailure(entries[..i], connected).value) else Pass
    {
      var name := entries[i].0;
      assert entries[..i + 1][..i] == entries[..i];
      assert entries == entries[..i] + entries[i..];
      KeyNotBefore(entries[..i], entries[i..], name);
      if HasKey(manager.groups, name) {
        ConnectedKeys(entries[..i], connected, name);
      }
      var result := manager.Connect(name, entries[i].1, connected(name));
      if result.Fail? && r.Pass? {
        r := result;
      }
      i := i + 1;
    }
    assert entries[..i] == entries;
  }
}
