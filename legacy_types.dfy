/** The older, stdio-only configuration schema and the shared record types of
    src/types.ts: `McpGroupInfo` (a group's name and description) and `ToolInfo` (a tool
    as an upstream server lists it). */
module LegacyTypes {
  import opened Wrappers
  import opened Json
  import Schema

  datatype LegacyServerConfig = LegacyServerConfig(
    description: string, command: string, args: Option<seq<string>>, env: Option<Schema.StringMap>)

  /** The older entry's demands on an object's properties: `type` exactly "stdio",
      string `description` and `command`, and valid optional `args` and `env`. */
  predicate LegacyShape(fields: Fields) {
    Lookup(fields, "type") == Some(JStr("stdio")) &&
    Schema.StringField(fields, "description") && Schema.StringField(fields, "command") &&
    Schema.Optional(Lookup(fields, "args"), Schema.StringListOf).Some? &&
    Schema.Optional(Lookup(fields, "env"), Schema.StringMapOf).Some?
  }

  /** The older `mcpServerConfigSchema`: `type` must be exactly "stdio" and has no
      default; `description` and `command` are required strings. Other properties are
      ignored, whatever the order. */
  function ValidateLegacy(j: Json): (r: Option<LegacyServerConfig>)
    ensures r.Some? <==> j.JObj? && LegacyShape(j.fields)
    ensures r.Some? ==>
      Lookup(j.fields, "description") == Some(JStr(r.value.description)) &&
      Lookup(j.fields, "command") == Some(JStr(r.value.command)) &&
      Schema.Optional(Lookup(j.fields, "args"), Schema.StringListOf) == Some(r.value.args) &&
      Schema.Optional(Lookup(j.fields, "env"), Schema.StringMapOf) == Some(r.value.env)
  {
    if !j.JObj? then None
    else
      var d := Lookup(j.fields, "description");
      var c := Lookup(j.fields, "command");
      var args := Schema.Optional(Lookup(j.fields, "args"), Schema.StringListOf);
      var env := Schema.Optional(Lookup(j.fields, "env"), Schema.StringMapOf);
      if Lookup(j.fields, "type") == Some(JStr("stdio")) && d.Some? && d.value.JStr? && c.Some? && c.value.JStr?
         && args.Some? && env.Some?
      then Some(LegacyServerConfig(d.value.s, c.value.s, args.value, env.value))
      else None
  }

  /** The newer schema accepts every entry the older one does, as the same stdio entry. */
  lemma LegacyEntriesStillValid(j: Json)
    requires ValidateLegacy(j).Some?
    ensures var l := ValidateLegacy(j).value;
      Schema.ValidateServer(j) == Some(Schema.Stdio(l.description, l.command, l.args, l.env))
  {
  }

  /** The older schema accepts exactly the entries that the newer one accepts as stdio
      entries and that spell out `type: "stdio"`. */
  lemma LegacyIffExplicitStdio(j: Json)
    ensures ValidateLegacy(j).Some? <==>
      Schema.ValidateServer(j).Some? && Schema.ValidateServer(j).value.Stdio? &&
      Lookup(j.fields, "type") == Some(JStr("stdio"))
  {
  }

  /** The older schema has no default for `type`: an entry without it is valid only in
      the newer schema. */
  lemma TypeIsRequiredInLegacy(j: Json)
    requires j.JObj? && !HasKey(j.fields, "type")
    ensures ValidateLegacy(j).None?
    ensures var d, c := Lookup(j.fields, "description"), Lookup(j.fields, "command");
      d.Some? && d.value.JStr? && c.Some? && c.value.JStr? &&
      !HasKey(j.fields, "args") && !HasKey(j.fields, "env") ==>
        Schema.ValidateServer(j) == Some(Schema.Stdio(d.value.s, c.value.s, None, None))
  {
  }

  /** The older `serverConfigSchema`: `mcpServers` maps names to legacy entries. */
  function ValidateLegacyServers(entries: Fields): (r: Option<seq<(string, LegacyServerConfig)>>)
    ensures r.Some? <==> forall i :: 0 <= i < |entries| ==> ValidateLegacy(entries[i].1).Some?
    ensures r.Some? ==>
      |r.value| == |entries| &&
      forall i :: 0 <= i < |entries| ==> r.value[i].0 == entries[i].0 && ValidateLegacy(entries[i].1) == Some(r.value[i].1)
  {
    if entries == [] then Some([])
    else
      match ValidateLegacy(entries[0].1)
      case None => None
      case Some(c) =>
        match ValidateLegacyServers(entries[1..])
        case None => None
        case Some(rest) => Some([(entries[0].0, c)] + rest)
  }

  function ValidateLegacyConfig(j: Json): (r: Option<seq<(string, LegacyServerConfig)>>)
    ensures r.Some? <==>
      j.JObj? && HasKey(j.fields, "mcpServers") &&
      var servers := Entries(Lookup(j.fields, "mcpServers").value);
      servers.Some? && forall i :: 0 <= i < |servers.value| ==> ValidateLegacy(servers.value[i].1).Some?
    ensures r.Some? ==> Keys(r.value) == Keys(Entries(Lookup(j.fields, "mcpServers").value).value)
  {
    if j.JObj? && Lookup(j.fields, "mcpServers").Some? then
      match Entries(Lookup(j.fields, "mcpServers").value)
      case Some(servers) => ValidateLegacyServers(servers)
      case None => None
    else None
  }

  /** Every configuration the older schema accepts, the newer accepts too. */
  lemma {:induction false} LegacyConfigStillValid(entries: Fields)
    requires ValidateLegacyServers(entries).Some?
    ensures Schema.ValidateServers(entries).Some?
  {
    forall i | 0 <= i < |entries|
      ensures Schema.ValidateServer(entries[i].1).Some?
    {
      LegacyEntriesStillValid(entries[i].1);
    }
  }

  datatype McpGroupInfo = McpGroupInfo(name: string, description: string)

  /** `ToolInfo`: the input schema is kept as the JSON object the upstream server sent. */
  datatype ToolInfo = ToolInfo(name: string, description: Option<string>, inputSchema: Fields)

  /** The declared shape of `ToolInfo.inputSchema`: `type` is "object", and `properties`
      (an object), `required` (a list of strings) and `$schema` (a string) are
      optional. */
  predicate ValidInputSchema(schema: Fields) {
    Lookup(schema, "type") == Some(JStr("object")) &&
    (HasKey(schema, "properties") ==> Lookup(schema, "properties").value.JObj?) &&
    (HasKey(schema, "required") ==> Lookup(schema, "required").value.JArr? &&
                                    AllStrings(Lookup(schema, "required").value.items)) &&
    (HasKey(schema, "$schema") ==> Lookup(schema, "$schema").value.JStr?)
  }

  /** The smallest input schema there is, `{type: "object"}`. */
  function EmptyInputSchema(): (schema: Fields)
    ensures ValidInputSchema(schema)
    ensures forall k :: HasKey(schema, k) <==> k == "type"
  {
    [("type", JStr("object"))]
  }
}
