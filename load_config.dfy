/** Environment substitution applied to a parsed, not yet validated, configuration file
    (src/config/loadConfig.ts, `applyEnvSubstitution` and `substituteServerConfig`).
    Only `args`/`env` of stdio entries and `url`/`headers` of http and sse entries are
    touched, and only when they already have the expected shape. */
module LoadConfig {
  import opened Wrappers
  import opened Json
  import opened EnvSubstitution
  import Schema

  /** `typeof config.type === "string" ? config.type : "stdio"` */
  function ServerType(config: Fields): string {
    match Lookup<Json>(config, "type")
    case Some(JStr(t)) => t
    case _ => "stdio"
  }

  predicate IsStringArray(j: Json) {
    j.JArr? && AllStrings(j.items)
  }

  /** A non-null, non-array object whose values are all strings. */
  predicate IsStringRecord(j: Json) {
    j.JObj? && AllStringValues(j.fields)
  }

  /** The new `args` value, when `args` is an array of strings; None leaves it alone. */
  function NewArgs(env: Env, config: Fields): (r: Result<Option<Json>, string>)
    ensures r.Ok? && r.value.Some? ==> HasKey(config, "args")
  {
    var a := Lookup(config, "args");
    if a.Some? && IsStringArray(a.value) then
      match SubstituteInArray(env, Strings(a.value.items))
      case Ok(v) => Ok(Some(StringArray(v)))
      case Err(e) => Err(e)
    else Ok(None)
  }

  /** The new value of a string-to-string record field (`env`, `headers`). */
  function NewRecord(env: Env, config: Fields, key: string): (r: Result<Option<Json>, string>)
    ensures r.Ok? && r.value.Some? ==> HasKey(config, key)
  {
    var a := Lookup(config, key);
    if a.Some? && IsStringRecord(a.value) then
      match SubstitutedRecord(env, StringRecord(a.value.fields))
      case Ok(v) => Ok(Some(RecordObject(v)))
      case Err(e) => Err(e)
    else Ok(None)
  }

  /** The new `url`, when `url` is a string. */
  function NewUrl(env: Env, config: Fields): (r: Result<Option<Json>, string>)
    ensures r.Ok? && r.value.Some? ==> HasKey(config, "url")
  {
    var a := Lookup(config, "url");
    if a.Some? && a.value.JStr? then
      match Subst(env, a.value.s)
      case Ok(v) => Ok(Some(JStr(v)))
      case Err(e) => Err(e)
    else Ok(None)
  }

  function Assign(fields: Fields, key: string, update: Option<Json>): Fields {
    match update
    case Some(v) => Set(fields, key, v)
    case None => fields
  }

  /** The copy of `config` with two fields rewritten: the first field's error wins, and
      every other property keeps its value. */
  function Rewrite(config: Fields, k1: string, u1: Result<Option<Json>, string>,
                   k2: string, u2: Result<Option<Json>, string>): (r: Result<Json, string>)
    requires k1 != k2
    ensures r.Ok? <==> u1.Ok? && u2.Ok?
    ensures r.Err? ==> r.error == if u1.Err? then u1.error else u2.error
    ensures r.Ok? ==>
      r.value.JObj? &&
      Lookup(r.value.fields, k1) == (if u1.value.Some? then u1.value else Lookup(config, k1)) &&
      Lookup(r.value.fields, k2) == (if u2.value.Some? then u2.value else Lookup(config, k2)) &&
      forall k :: k != k1 && k != k2 ==> Lookup(r.value.fields, k) == Lookup(config, k)
  {
    match u1
    case Err(e) => Err(e)
    case Ok(v1) =>
      match u2
      case Err(e) => Err(e)
      case Ok(v2) => Ok(JObj(Assign(Assign(config, k1, v1), k2, v2)))
  }

  /** Rewriting fields the object already has keeps its property names in order. */
  lemma RewriteKeepsOrder(config: Fields, k1: string, u1: Result<Option<Json>, string>,
                          k2: string, u2: Result<Option<Json>, string>)
    requires k1 != k2
    requires u1.Ok? && u1.value.Some? ==> HasKey(config, k1)
    requires u2.Ok? && u2.value.Some? ==> HasKey(config, k2)
    ensures Rewrite(config, k1, u1, k2, u2).Ok? ==> Keys(Rewrite(config, k1, u1, k2, u2).value.fields) == Keys(config)
  {
    if u1.Ok? && u2.Ok? {
      var first := Assign(config, k1, u1.value);
      if u1.value.Some? {
        SetKeepsOrder(config, k1, u1.value.value);
      }
      if u2.value.Some? {
        assert HasKey(first, k2);
        SetKeepsOrder(first, k2, u2.value.value);
      }
    }
  }

  /** The two fields of each transport type that substitution may rewrite. */
  function SubstitutedKeys(serverType: string): set<string> {
    if serverType == "stdio" then {"args", "env"}
    else if serverType == "http" || serverType == "sse" then {"url", "headers"}
    else {}
  }

  /** What `substituteServerConfig` computes for one server entry; a value that is not an
      object is returned as it is. */
  function SubstitutedServer(env: Env, entry: Json): (r: Result<Json, string>)
    ensures !(entry.JObj? || entry.JArr?) ==> r == Ok(entry)
  {
    match Entries(entry)
    case None => Ok(entry)
    case Some(config) =>
      var t := ServerType(config);
      if t == "stdio" then
        Rewrite(config, "args", NewArgs(env, config), "env", NewRecord(env, config, "env"))
      else if t == "http" || t == "sse" then
        Rewrite(config, "url", NewUrl(env, config), "headers", NewRecord(env, config, "headers"))
      else Ok(JObj(config))
  }

  /** A substituted entry is an object with the entry's property names in the same
      order, every property outside SubstitutedKeys keeps its value, and an object of an
      unknown type comes back unchanged. */
  lemma SubstitutedServerKeepsShape(env: Env, entry: Json)
    requires entry.JObj? || entry.JArr?
    ensures SubstitutedServer(env, entry).Ok? ==>
      var config := Entries(entry).value;
      var out := SubstitutedServer(env, entry).value;
      out.JObj? && Keys(out.fields) == Keys(config) &&
      forall k :: k !in SubstitutedKeys(ServerType(config)) ==> Lookup(out.fields, k) == Lookup(config, k)
    ensures entry.JObj? && SubstitutedKeys(ServerType(entry.fields)) == {} ==>
      SubstitutedServer(env, entry) == Ok(entry)
  {
    var config := Entries(entry).value;
    var t := ServerType(config);
    if t == "stdio" {
      RewriteKeepsOrder(config, "args", NewArgs(env, config), "env", NewRecord(env, config, "env"));
    } else if t == "http" || t == "sse" {
      RewriteKeepsOrder(config, "url", NewUrl(env, config), "headers", NewRecord(env, config, "headers"));
    }
  }

  /** For a stdio entry, an `args` array of strings is substituted element by element
      and anything else in `args` is left alone. */
  lemma StdioArgsSubstituted(env: Env, config: Fields, out: Json)
    requires ServerType(config) == "stdio"
    requires SubstitutedServer(env, JObj(config)) == Ok(out)
    ensures var a := Lookup(config, "args");
      a.Some? && IsStringArray(a.value) ==>
        SubstituteInArray(env, Strings(a.value.items)).Ok? &&
        Lookup(out.fields, "args") == Some(StringArray(SubstituteInArray(env, Strings(a.value.items)).value))
    ensures var a := Lookup(config, "args");
      !(a.Some? && IsStringArray(a.value)) ==> Lookup(out.fields, "args") == a
  {
  }

  /** For a stdio entry, an `env` record of strings is substituted value by value and
      anything else in `env` is left alone. */
  lemma StdioEnvSubstituted(env: Env, config: Fields, out: Json)
    requires ServerType(config) == "stdio"
    requires SubstitutedServer(env, JObj(config)) == Ok(out)
    ensures var a := Lookup(config, "env");
      a.Some? && IsStringRecord(a.value) ==>
        SubstitutedRecord(env, StringRecord(a.value.fields)).Ok? &&
        Lookup(out.fields, "env") == Some(RecordObject(SubstitutedRecord(env, StringRecord(a.value.fields)).value))
    ensures var a := Lookup(config, "env");
      !(a.Some? && IsStringRecord(a.value)) ==> Lookup(out.fields, "env") == a
  {
  }

  /** For an http or sse entry, a string `url` is substituted and anything else is left
      alone. */
  lemma StreamUrlSubstituted(env: Env, config: Fields, out: Json)
    requires ServerType(config) == "http" || ServerType(config) == "sse"
    requires SubstitutedServer(env, JObj(config)) == Ok(out)
    ensures var a := Lookup(config, "url");
      a.Some? && a.value.JStr? ==>
        Subst(env, a.value.s).Ok? && Lookup(out.fields, "url") == Some(JStr(Subst(env, a.value.s).value))
    ensures var a := Lookup(config, "url");
      !(a.Some? && a.value.JStr?) ==> Lookup(out.fields, "url") == a
  {
  }

  /** For an http or sse entry, `headers` follows the same rule as `env`. */
  lemma StreamHeadersSubstituted(env: Env, config: Fields, out: Json)
    requires ServerType(config) == "http" || ServerType(config) == "sse"
    requires SubstitutedServer(env, JObj(config)) == Ok(out)
    ensures var a := Lookup(config, "headers");
      a.Some? && IsStringRecord(a.value) ==>
        SubstitutedRecord(env, StringRecord(a.value.fields)).Ok? &&
        Lookup(out.fields, "headers") == Some(RecordObject(SubstitutedRecord(env, StringRecord(a.value.fields)).value))
    ensures var a := Lookup(config, "headers");
      !(a.Some? && IsStringRecord(a.value)) ==> Lookup(out.fields, "headers") == a
  {
  }

  /** A stdio entry fails exactly when its `args` array or its `env` record does, with
      the `args` error first. */
  lemma StdioFailure(env: Env, config: Fields)
    requires ServerType(config) == "stdio"
    ensures var a, e := Lookup(config, "args"), Lookup(config, "env");
      var argsFail := a.Some? && IsStringArray(a.value) && SubstituteInArray(env, Strings(a.value.items)).Err?;
      var envFail := e.Some? && IsStringRecord(e.value) && SubstitutedRecord(env, StringRecord(e.value.fields)).Err?;
      var r := SubstitutedServer(env, JObj(config));
      (r.Err? <==> argsFail || envFail) &&
      (argsFail ==> r.error == SubstituteInArray(env, Strings(a.value.items)).error) &&
      (!argsFail && envFail ==> r.error == SubstitutedRecord(env, StringRecord(e.value.fields)).error)
  {
  }

  /** `substituteServerConfig`: copies the entry and then overwrites the substituted
      fields one by one. */
  method SubstituteServerConfig(env: Env, serverConfig: Json) returns (r: Result<Json, string>)
    ensures r == SubstitutedServer(env, serverConfig)
  {
    if !(serverConfig.JObj? || serverConfig.JArr?) {
      return Ok(serverConfig);
    }
    var config := Entries(serverConfig).value;
    var result := config;
    var serverType := ServerType(config);
    if serverType == "stdio" {
      var argsValue := Lookup(config, "args");
      if argsValue.Some? && IsStringArray(argsValue.value) {
        var args := SubstituteInArray(env, Strings(argsValue.value.items));
        if args.Err? {
          return Err(args.error);
        }
        result := Set(result, "args", StringArray(args.value));
      }
      var envValue := Lookup(config, "env");
      if envValue.Some? && IsStringRecord(envValue.value) {
        var rec := SubstituteInObject(env, StringRecord(envValue.value.fields));
        if rec.Err? {
          return Err(rec.error);
        }
        result := Set(result, "env", RecordObject(rec.value));
      }
    } else if serverType == "http" || serverType == "sse" {
      var urlValue := Lookup(config, "url");
      if urlValue.Some? && urlValue.value.JStr? {
        var url := Subst(env, urlValue.value.s);
        if url.Err? {
          return Err(url.error);
        }
        result := Set(result, "url", JStr(url.value));
      }
      var headersValue := Lookup(config, "headers");
      if headersValue.Some? && IsStringRecord(headersValue.value) {
        var rec := SubstituteInObject(env, StringRecord(headersValue.value.fields));
        if rec.Err? {
          return Err(rec.error);
        }
        result := Set(result, "headers", RecordObject(rec.value));
      }
    }
    return Ok(JObj(result));
  }

  function ServerErrorMessage(serverName: string, message: string): string {
    "Failed to substitute environment variables in server '" + serverName + "': " + message
  }

  /** The loop of `applyEnvSubstitution`, for any per-server rewrite `f`: every entry
      through `f` under its own name, in order, or the first failure rethrown with the
      server's name (SweepMeaning). */
  function Sweep(f: Json -> Result<Json, string>, servers: Fields): (r: Result<Fields, string>)
    ensures r.Ok? ==> |r.value| == |servers|
  {
    if servers == [] then Ok([])
    else
      var init := servers[..|servers| - 1];
      var last := servers[|servers| - 1];
      match Sweep(f, init)
      case Err(e) => Err(e)
      case Ok(done) =>
        match f(last.1)
        case Err(e) => Err(ServerErrorMessage(last.0, e))
        case Ok(v) => Ok(done + [(last.0, v)])
  }

  /** The sweep succeeds exactly when every server does; it then keeps every name and
      position, and otherwise reports the first failing server under its name. */
  lemma {:induction false} SweepMeaning(f: Json -> Result<Json, string>, servers: Fields)
    ensures var r := Sweep(f, servers);
      (r.Ok? <==> forall i :: 0 <= i < |servers| ==> f(servers[i].1).Ok?) &&
      (r.Ok? ==> forall i :: 0 <= i < |servers| ==> r.value[i].0 == servers[i].0 && f(servers[i].1) == Ok(r.value[i].1)) &&
      (r.Err? ==>
        exists i :: 0 <= i < |servers| && f(servers[i].1).Err? &&
          r.error == ServerErrorMessage(servers[i].0, f(servers[i].1).error) &&
          forall j :: 0 <= j < i ==> f(servers[j].1).Ok?)
    decreases |servers|
  {
    if servers != [] {
      var init := servers[..|servers| - 1];
      var last := servers[|servers| - 1];
      SweepMeaning(f, init);
      assert forall i :: 0 <= i < |init| ==> init[i] == servers[i];
      var r := Sweep(f, init);
      if r.Err? {
        var i :| 0 <= i < |init| && f(init[i].1).Err? &&
          r.error == ServerErrorMessage(init[i].0, f(init[i].1).error) &&
          forall j :: 0 <= j < i ==> f(init[j].1).Ok?;
        assert servers[i] == init[i];
      } else if f(last.1).Err? {
        assert forall j :: 0 <= j < |servers| - 1 ==> f(servers[j].1).Ok?;
      }
    }
  }

  /** Once a prefix of the servers fails, the whole sweep fails with the same error. */
  lemma {:induction false} SweepErrSticks(f: Json -> Result<Json, string>, servers: Fields, k: nat)
    requires k <= |servers| && Sweep(f, servers[..k]).Err?
    ensures Sweep(f, servers) == Sweep(f, servers[..k])
    decreases |servers| - k
  {
    if k < |servers| {
      assert servers[..k + 1][..k] == servers[..k];
      SweepErrSticks(f, servers, k + 1);
    } else {
      assert servers[..k] == servers;
    }
  }

  function ServerSubstitution(env: Env): Json -> Result<Json, string> {
    entry => SubstitutedServer(env, entry)
  }

  /** The servers record `applyEnvSubstitution` works on, when the input has one: the
      input is an object with an `mcpServers` property holding a non-null object (an
      array counts, with its indices as names). */
  function ServersOf(data: Json): Option<Fields> {
    if data.JObj? && Lookup(data.fields, "mcpServers").Some? then
      Entries(Lookup(data.fields, "mcpServers").value)
    else None
  }

  /** What `applyEnvSubstitution` computes: input without a servers record is returned
      unchanged; otherwise `mcpServers` is replaced, in its place, by the substituted
      servers and every other top-level property is kept. */
  function SubstitutedConfig(env: Env, data: Json): (r: Result<Json, string>)
    ensures ServersOf(data).None? ==> r == Ok(data)
    ensures ServersOf(data).Some? ==>
      (r.Err? <==> Sweep(ServerSubstitution(env), ServersOf(data).value).Err?)
    ensures ServersOf(data).Some? && r.Ok? ==>
      r.value.JObj? && Keys(r.value.fields) == Keys(data.fields) &&
      (forall k :: k != "mcpServers" ==> Lookup(r.value.fields, k) == Lookup(data.fields, k)) &&
      Lookup(r.value.fields, "mcpServers") == Some(JObj(Sweep(ServerSubstitution(env), ServersOf(data).value).value))
  {
    match ServersOf(data)
    case None => Ok(data)
    case Some(servers) =>
      match Sweep(ServerSubstitution(env), servers)
      case Err(e) => Err(e)
      case Ok(s) =>
        SetKeepsOrder(data.fields, "mcpServers", JObj(s));
        Ok(JObj(Set(data.fields, "mcpServers", JObj(s))))
  }

  /** `applyEnvSubstitution`: fills `substituted` server by server, then spreads the
      input with the new `mcpServers`. */
  method ApplyEnvSubstitution(env: Env, data: Json) returns (r: Result<Json, string>)
    ensures r == SubstitutedConfig(env, data)
  {
    var servers := ServersOf(data);
    if servers.None? {
      return Ok(data);
    }
    var entries := servers.value;
    ghost var f := ServerSubstitution(env);
    var substituted: Fields := [];
    for i := 0 to |entries|
      invariant Sweep(f, entries[..i]) == Ok(substituted)
    {
      var serverName := entries[i].0;
      var entry := SubstituteServerConfig(env, entries[i].1);
      SweepStep(f, entries, i, substituted, entry);
      if entry.Err? {
        return Err(ServerErrorMessage(serverName, entry.error));
      }
      substituted := substituted + [(serverName, entry.value)];
    }
    assert entries[..|entries|] == entries;
    SpreadOne(data.fields, "mcpServers", JObj(substituted));
    return Ok(JObj(Spread(data.fields, [("mcpServers", JObj(substituted))])));
  }

  /** Spreading a single property is assigning it. */
  lemma SpreadOne(base: Fields, k: string, v: Json)
    ensures Spread(base, [(k, v)]) == Set(base, k, v)
  {
    assert [(k, v)][1..] == [];
  }

  /** One step of the loop of `applyEnvSubstitution`: a success extends the record, a
      failure ends the sweep. */
  lemma SweepStep(f: Json -> Result<Json, string>, servers: Fields, i: nat, done: Fields, entry: Result<Json, string>)
    requires i < |servers| && Sweep(f, servers[..i]) == Ok(done) && f(servers[i].1) == entry
    ensures entry.Ok? ==> Sweep(f, servers[..i + 1]) == Ok(done + [(servers[i].0, entry.value)])
    ensures entry.Err? ==> Sweep(f, servers) == Err(ServerErrorMessage(servers[i].0, entry.error))
  {
    assert servers[..i + 1][..i] == servers[..i];
    if entry.Err? {
      SweepErrSticks(f, servers, i + 1);
    }
  }

  const NotJsonPrefix := "Specified configuration file is not a valid json: "
  const NotSchemaPrefix := "Specified configuration file is not satisfies the schema: "

  /** `loadConfig` once the file has been read: `parsed` is what `JSON.parse` gave, None
      when it threw. Substitution runs before validation, and its error propagates as
      it is. */
  function Load(env: Env, absolutePath: string, parsed: Option<Json>): (r: Result<seq<(string, Schema.McpServerConfig)>, string>)
    ensures parsed.None? ==> r == Err(NotJsonPrefix + absolutePath)
    ensures parsed.Some? && SubstitutedConfig(env, parsed.value).Err? ==>
      r == Err(SubstitutedConfig(env, parsed.value).error)
    ensures parsed.Some? && SubstitutedConfig(env, parsed.value).Ok? ==>
      var checked := Schema.ValidateConfig(SubstitutedConfig(env, parsed.value).value);
      (checked.None? ==> r == Err(NotSchemaPrefix + absolutePath)) &&
      (checked.Some? ==> r == Ok(checked.value))
  {
    match parsed
    case None => Err(NotJsonPrefix + absolutePath)
    case Some(data) =>
      match SubstitutedConfig(env, data)
      case Err(e) => Err(e)
      case Ok(substituted) =>
        match Schema.ValidateConfig(substituted)
        case None => Err(NotSchemaPrefix + absolutePath)
        case Some(servers) => Ok(servers)
  }

  /** The `TypeError` raised by calling a property that is not a function. */
  const SafeParseMissing := "serverConfigSchema.safeParse is not a function"

  /** `loadConfig` as written: `serverConfigSchema` is a valibot schema, a plain object
      without a `safeParse` method, so the validation step calls `undefined` and raises
      a `TypeError`. Only the JSON and substitution errors come out as intended. */
  function LoadAsWritten(env: Env, absolutePath: string, parsed: Option<Json>): (r: Result<seq<(string, Schema.McpServerConfig)>, string>)
    ensures parsed.None? ==> r == Err(NotJsonPrefix + absolutePath)
    ensures parsed.Some? && SubstitutedConfig(env, parsed.value).Err? ==>
      r == Err(SubstitutedConfig(env, parsed.value).error)
    ensures parsed.Some? && SubstitutedConfig(env, parsed.value).Ok? ==> r == Err(SafeParseMissing)
  {
    match parsed
    case None => Err(NotJsonPrefix + absolutePath)
    case Some(data) =>
      match SubstitutedConfig(env, data)
      case Err(e) => Err(e)
      case Ok(_) => Err(SafeParseMissing)
  }

  /** As written, no configuration ever loads, while the intended validation loads every
      file whose substituted content fits the schema; the two agree on every failure
      before validation. */
  lemma LoadAsWrittenNeverLoads(env: Env, absolutePath: string, parsed: Option<Json>)
    ensures LoadAsWritten(env, absolutePath, parsed).Err?
    ensures Load(env, absolutePath, parsed).Ok? ==>
      LoadAsWritten(env, absolutePath, parsed) == Err(SafeParseMissing)
    ensures (parsed.None? || SubstitutedConfig(env, parsed.value).Err?) ==>
      LoadAsWritten(env, absolutePath, parsed) == Load(env, absolutePath, parsed)
  {
  }

  /** A file with no servers at all fits the schema, yet the code as written rejects it. */
  lemma EmptyConfigRejectedAsWritten(env: Env, absolutePath: string)
    ensures Load(env, absolutePath, Some(JObj([("mcpServers", JObj([]))]))) == Ok([])
    ensures LoadAsWritten(env, absolutePath, Some(JObj([("mcpServers", JObj([]))]))) == Err(SafeParseMissing)
  {
    var data := JObj([("mcpServers", JObj([]))]);
    assert Lookup(data.fields, "mcpServers") == Some(JObj([]));
    assert ServersOf(data) == Some([]);
    assert Sweep(ServerSubstitution(env), []) == Ok([]);
    var substituted := SubstitutedConfig(env, data).value;
    assert Lookup(substituted.fields, "mcpServers") == Some(JObj([]));
    assert Schema.ValidateServers([]) == Some([]);
  }

  /** A loaded configuration has exactly the servers of the file, under their names and
      in their order: substitution renames and drops nothing. */
  lemma LoadKeepsServerNames(env: Env, absolutePath: string, data: Json)
    requires Load(env, absolutePath, Some(data)).Ok?
    ensures ServersOf(data).Some?
    ensures Keys(Load(env, absolutePath, Some(data)).value) == Keys(ServersOf(data).value)
  {
    var substituted := SubstitutedConfig(env, data).value;
    var loaded := Load(env, absolutePath, Some(data)).value;
    var servers := ServersOf(data).value;
    var swept := Sweep(ServerSubstitution(env), servers).value;
    SweepMeaning(ServerSubstitution(env), servers);
    assert Lookup(substituted.fields, "mcpServers") == Some(JObj(swept));
    assert Keys(loaded) == Keys(swept);
    assert forall i :: 0 <= i < |servers| ==> Keys(swept)[i] == Keys(servers)[i];
  }
}
