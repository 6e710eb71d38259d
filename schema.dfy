/** The configuration file's schema (src/config/schema.ts): a server entry is one of three
    object shapes, tried in order (stdio, http, sse), and a configuration is a record
    `mcpServers` of such entries. Validation returns the schema's output: the known
    fields only (unknown properties are dropped), with the stdio `type` defaulted. */
module Schema {
  import opened Wrappers
  import opened Json

  type StringMap = seq<(string, string)>

  datatype McpServerConfig =
    | Stdio(description: string, command: string, args: Option<seq<string>>, env: Option<StringMap>)
    | Http(description: string, url: string, headers: Option<StringMap>)
    | Sse(description: string, url: string, headers: Option<StringMap>)

  /** `v.array(v.string())` */
  function StringListOf(j: Json): (r: Option<seq<string>>)
    ensures r.Some? <==> j.JArr? && AllStrings(j.items)
  {
    if j.JArr? && AllStrings(j.items) then Some(Strings(j.items)) else None
  }

  /** `v.record(v.string(), v.string())`: any non-null object, arrays included, whose
      own property values are all strings. */
  function StringMapOf(j: Json): (r: Option<StringMap>)
    ensures r.Some? <==> Entries(j).Some? && AllStringValues(Entries(j).value)
    ensures r.Some? ==>
      |r.value| == |Entries(j).value| &&
      forall i :: 0 <= i < |r.value| ==> r.value[i] == (Entries(j).value[i].0, Entries(j).value[i].1.s)
  {
    match Entries(j)
    case Some(fields) => if AllStringValues(fields) then Some(StringRecord(fields)) else None
    case None => None
  }

  /** `v.optional(s)`: an absent property is accepted as absent; a present one must
      satisfy `s`. Some(None) is "valid and absent", None is "invalid". */
  function Optional<T>(present: Option<Json>, parse: Json -> Option<T>): Option<Option<T>> {
    match present
    case None => Some(None)
    case Some(j) =>
      match parse(j)
      case Some(v) => Some(Some(v))
      case None => None
  }

  /** The property `k` is present and a string. */
  predicate StringField(fields: Fields, k: string) {
    Lookup(fields, k).Some? && Lookup(fields, k).value.JStr?
  }

  /** The stdio variant's demands on an object's properties. */
  predicate StdioShape(fields: Fields) {
    (Lookup(fields, "type").None? || Lookup(fields, "type") == Some(JStr("stdio"))) &&
    StringField(fields, "description") && StringField(fields, "command") &&
    Optional(Lookup(fields, "args"), StringListOf).Some? && Optional(Lookup(fields, "env"), StringMapOf).Some?
  }

  /** The http or sse variant's demands on an object's properties. */
  predicate StreamShape(fields: Fields, kind: string) {
    Lookup(fields, "type") == Some(JStr(kind)) &&
    StringField(fields, "description") && StringField(fields, "url") &&
    Optional(Lookup(fields, "headers"), StringMapOf).Some?
  }

  /** The first alternative: `type` absent or exactly "stdio". */
  function StdioOf(fields: Fields): Option<McpServerConfig> {
    var t := Lookup(fields, "type");
    var d := Lookup(fields, "description");
    var c := Lookup(fields, "command");
    var args := Optional(Lookup(fields, "args"), StringListOf);
    var env := Optional(Lookup(fields, "env"), StringMapOf);
    if (t.None? || t == Some(JStr("stdio"))) && d.Some? && d.value.JStr? && c.Some? && c.value.JStr?
       && args.Some? && env.Some?
    then Some(Stdio(d.value.s, c.value.s, args.value, env.value))
    else None
  }

  /** The http and sse alternatives, which differ only in their `type` literal. */
  function StreamOf(fields: Fields, kind: string): Option<McpServerConfig>
    requires kind == "http" || kind == "sse"
  {
    var d := Lookup(fields, "description");
    var u := Lookup(fields, "url");
    var headers := Optional(Lookup(fields, "headers"), StringMapOf);
    if Lookup(fields, "type") == Some(JStr(kind)) && d.Some? && d.value.JStr? && u.Some? && u.value.JStr?
       && headers.Some?
    then
      if kind == "http" then Some(Http(d.value.s, u.value.s, headers.value))
      else Some(Sse(d.value.s, u.value.s, headers.value))
    else None
  }

  /** `mcpServerConfigSchema`: the union tries its options in order and keeps the first
      that succeeds. Every variant requires a string `description`, and the variant is
      fixed by the `type` property: stdio when it is absent or "stdio". */
  function ValidateServer(j: Json): (r: Option<McpServerConfig>)
    ensures r.Some? ==> j.JObj? && Lookup(j.fields, "description") == Some(JStr(r.value.description))
    ensures r.Some? && r.value.Stdio? ==>
      (Lookup(j.fields, "type").None? || Lookup(j.fields, "type") == Some(JStr("stdio"))) &&
      Lookup(j.fields, "command") == Some(JStr(r.value.command))
    ensures r.Some? && r.value.Http? ==>
      Lookup(j.fields, "type") == Some(JStr("http")) && Lookup(j.fields, "url") == Some(JStr(r.value.url))
    ensures r.Some? && r.value.Sse? ==>
      Lookup(j.fields, "type") == Some(JStr("sse")) && Lookup(j.fields, "url") == Some(JStr(r.value.url))
    // Conversely, an object with the fields of a variant is accepted as that variant,
    // whatever the order of its properties and whatever other properties it has.
    ensures j.JObj? && StdioShape(j.fields) ==>
      r == Some(Stdio(Lookup(j.fields, "description").value.s, Lookup(j.fields, "command").value.s,
                      Optional(Lookup(j.fields, "args"), StringListOf).value,
                      Optional(Lookup(j.fields, "env"), StringMapOf).value))
    ensures j.JObj? && StreamShape(j.fields, "http") ==>
      r == Some(Http(Lookup(j.fields, "description").value.s, Lookup(j.fields, "url").value.s,
                     Optional(Lookup(j.fields, "headers"), StringMapOf).value))
    ensures j.JObj? && StreamShape(j.fields, "sse") ==>
      r == Some(Sse(Lookup(j.fields, "description").value.s, Lookup(j.fields, "url").value.s,
                    Optional(Lookup(j.fields, "headers"), StringMapOf).value))
    ensures r.Some? <==> j.JObj? && (StdioShape(j.fields) || StreamShape(j.fields, "http") || StreamShape(j.fields, "sse"))
  {
    if !j.JObj? then None
    else
      match StdioOf(j.fields)
      case Some(c) => Some(c)
      case None =>
        match StreamOf(j.fields, "http")
        case Some(c) => Some(c)
        case None => StreamOf(j.fields, "sse")
  }

  /** An entry is accepted whatever the order of its properties, and an unknown property
      is dropped from the output. */
  lemma ReorderedEntryAccepted(d: string, cmd: string, extra: Json)
    ensures ValidateServer(JObj([("command", JStr(cmd)), ("extra", extra), ("description", JStr(d))]))
      == Some(Stdio(d, cmd, None, None))
  {
    var f := [("command", JStr(cmd)), ("extra", extra), ("description", JStr(d))];
    LookupHead(f[0], f[1], f[2], [], "description");
    LookupHead(f[0], f[1], f[2], [], "command");
    LookupHead(f[0], f[1], f[2], [], "type");
    LookupHead(f[0], f[1], f[2], [], "args");
    LookupHead(f[0], f[1], f[2], [], "env");
    assert f == [f[0], f[1], f[2]] + [];
  }

  /** An entry without `type` can only be a stdio entry. */
  lemma MissingTypeMeansStdio(j: Json)
    requires j.JObj? && !HasKey(j.fields, "type") && ValidateServer(j).Some?
    ensures ValidateServer(j).value.Stdio?
  {
  }

  /** The optional fields: `args` is a list of strings and `env`/`headers` string maps
      whenever they are present, and they are absent from the output exactly when the
      entry lacks them. */
  lemma OptionalFieldsChecked(j: Json)
    requires ValidateServer(j).Some?
    ensures var c := ValidateServer(j).value;
      (c.Stdio? ==>
        (c.args.Some? <==> HasKey(j.fields, "args")) &&
        (c.args.Some? ==> StringListOf(Lookup(j.fields, "args").value) == c.args) &&
        (c.env.Some? <==> HasKey(j.fields, "env")) &&
        (c.env.Some? ==> StringMapOf(Lookup(j.fields, "env").value) == c.env)) &&
      (!c.Stdio? ==>
        (c.headers.Some? <==> HasKey(j.fields, "headers")) &&
        (c.headers.Some? ==> StringMapOf(Lookup(j.fields, "headers").value) == c.headers))
  {
  }

  function StringMapJson(m: StringMap): Json {
    RecordObject(m)
  }

  function OptionalField(key: string, v: Option<Json>): Fields {
    match v
    case Some(j) => [(key, j)]
    case None => []
  }

  /** The schema's output written back as JSON, `type` included. */
  function ToJson(c: McpServerConfig): (j: Json)
    ensures j.JObj?
  {
    match c
    case Stdio(d, cmd, args, env) =>
      JObj([("type", JStr("stdio")), ("description", JStr(d)), ("command", JStr(cmd))]
           + OptionalField("args", if args.Some? then Some(StringArray(args.value)) else None)
           + OptionalField("env", if env.Some? then Some(StringMapJson(env.value)) else None))
    case Http(d, url, headers) =>
      JObj([("type", JStr("http")), ("description", JStr(d)), ("url", JStr(url))]
           + OptionalField("headers", if headers.Some? then Some(StringMapJson(headers.value)) else None))
    case Sse(d, url, headers) =>
      JObj([("type", JStr("sse")), ("description", JStr(d)), ("url", JStr(url))]
           + OptionalField("headers", if headers.Some? then Some(StringMapJson(headers.value)) else None))
  }

  lemma StringMapRoundTrip(m: StringMap)
    ensures StringMapOf(StringMapJson(m)) == Some(m)
  {
    var fields := StringMapJson(m).fields;
    assert AllStringValues(fields);
    var back := StringRecord(fields);
    assert |back| == |m|;
    assert forall i :: 0 <= i < |m| ==> back[i] == m[i];
    assert back == m;
  }

  lemma StringListRoundTrip(xs: seq<string>)
    ensures StringListOf(StringArray(xs)) == Some(xs)
  {
  }

  /** Lookup in a three-field prefix followed by optional fields. */
  lemma LookupHead(a: (string, Json), b: (string, Json), c: (string, Json), rest: Fields, k: string)
    ensures Lookup([a, b, c] + rest, k) ==
      if k == a.0 then Some(a.1) else if k == b.0 then Some(b.1) else if k == c.0 then Some(c.1) else Lookup(rest, k)
  {
    var s := [a, b, c] + rest;
    var s1, s2 := [b, c] + rest, [c] + rest;
    assert s[0] == a && s[1..] == s1;
    assert s1[0] == b && s1[1..] == s2;
    assert s2[0] == c && s2[1..] == rest;
    assert Lookup(s2, k) == if k == c.0 then Some(c.1) else Lookup(rest, k);
    assert Lookup(s1, k) == if k == b.0 then Some(b.1) else Lookup(s2, k);
  }

  lemma LookupTail(x: Fields, y: Fields, k: string)
    requires forall i :: 0 <= i < |x| ==> x[i].0 != k
    ensures Lookup(x + y, k) == Lookup(y, k)
  {
    if x != [] {
      assert (x + y)[1..] == x[1..] + y;
      LookupTail(x[1..], y, k);
    } else {
      assert x + y == y;
    }
  }

  /** Validating a written-back entry gives the entry itself. */
  lemma ValidateToJson(c: McpServerConfig)
    ensures ValidateServer(ToJson(c)) == Some(c)
  {
    match c
    case Stdio(d, cmd, args, env) => StdioToJson(d, cmd, args, env);
    case Http(d, url, headers) => StreamToJson(c);
    case Sse(d, url, headers) => StreamToJson(c);
  }

  lemma {:induction false} StdioToJson(d: string, cmd: string, args: Option<seq<string>>, env: Option<StringMap>)
    ensures StdioOf(ToJson(Stdio(d, cmd, args, env)).fields) == Some(Stdio(d, cmd, args, env))
  {
    var f := ToJson(Stdio(d, cmd, args, env)).fields;
    var a := OptionalField("args", if args.Some? then Some(StringArray(args.value)) else None);
    var e := OptionalField("env", if env.Some? then Some(StringMapJson(env.value)) else None);
    var rest := a + e;
    assert f == [("type", JStr("stdio")), ("description", JStr(d)), ("command", JStr(cmd))] + rest;
    LookupHead(("type", JStr("stdio")), ("description", JStr(d)), ("command", JStr(cmd)), rest, "type");
    LookupHead(("type", JStr("stdio")), ("description", JStr(d)), ("command", JStr(cmd)), rest, "description");
    LookupHead(("type", JStr("stdio")), ("description", JStr(d)), ("command", JStr(cmd)), rest, "command");
    LookupHead(("type", JStr("stdio")), ("description", JStr(d)), ("command", JStr(cmd)), rest, "args");
    LookupHead(("type", JStr("stdio")), ("description", JStr(d)), ("command", JStr(cmd)), rest, "env");
    LookupTail(a, e, "env");
    if args.Some? {
      StringListRoundTrip(args.value);
      assert rest[0] == ("args", StringArray(args.value));
    } else {
      assert rest == e;
    }
    if env.Some? {
      StringMapRoundTrip(env.value);
    }
    assert Optional(Lookup(f, "args"), StringListOf) == Some(args);
    assert Optional(Lookup(f, "env"), StringMapOf) == Some(env);
  }

  lemma {:induction false} StreamToJson(c: McpServerConfig)
    requires !c.Stdio?
    ensures ValidateServer(ToJson(c)) == Some(c)
  {
    var f := ToJson(c).fields;
    var kind := if c.Http? then "http" else "sse";
    var h := OptionalField("headers", if c.headers.Some? then Some(StringMapJson(c.headers.value)) else None);
    assert f == [("type", JStr(kind)), ("description", JStr(c.description)), ("url", JStr(c.url))] + h;
    LookupHead(("type", JStr(kind)), ("description", JStr(c.description)), ("url", JStr(c.url)), h, "type");
    LookupHead(("type", JStr(kind)), ("description", JStr(c.description)), ("url", JStr(c.url)), h, "description");
    LookupHead(("type", JStr(kind)), ("description", JStr(c.description)), ("url", JStr(c.url)), h, "url");
    LookupHead(("type", JStr(kind)), ("description", JStr(c.description)), ("url", JStr(c.url)), h, "headers");
    if c.headers.Some? {
      StringMapRoundTrip(c.headers.value);
    }
    assert Optional(Lookup(f, "headers"), StringMapOf) == Some(c.headers);
    assert StdioOf(f).None?;
    assert StreamOf(f, kind) == Some(c);
    if kind == "sse" {
      assert StreamOf(f, "http").None?;
    }
  }

  /** Validation is a normalisation: validating its written-back output changes nothing. */
  lemma ValidateIdempotent(j: Json)
    requires ValidateServer(j).Some?
    ensures ValidateServer(ToJson(ValidateServer(j).value)) == ValidateServer(j)
  {
    ValidateToJson(ValidateServer(j).value);
  }

  /** `v.record(v.string(), mcpServerConfigSchema)` over the entries of `mcpServers`. */
  function ValidateServers(entries: Fields): (r: Option<seq<(string, McpServerConfig)>>)
    ensures r.Some? <==> forall i :: 0 <= i < |entries| ==> ValidateServer(entries[i].1).Some?
    ensures r.Some? ==>
      |r.value| == |entries| &&
      forall i :: 0 <= i < |entries| ==> r.value[i].0 == entries[i].0 && ValidateServer(entries[i].1) == Some(r.value[i].1)
  {
    if entries == [] then Some([])
    else
      match ValidateServer(entries[0].1)
      case None => None
      case Some(c) =>
        match ValidateServers(entries[1..])
        case None => None
        case Some(rest) => Some([(entries[0].0, c)] + rest)
  }

  /** `serverConfigSchema`: an object whose `mcpServers` is a record of valid entries. */
  function ValidateConfig(j: Json): (r: Option<seq<(string, McpServerConfig)>>)
    ensures r.Some? <==>
      j.JObj? && HasKey(j.fields, "mcpServers") &&
      var servers := Entries(Lookup(j.fields, "mcpServers").value);
      servers.Some? && forall i :: 0 <= i < |servers.value| ==> ValidateServer(servers.value[i].1).Some?
    ensures r.Some? ==> Keys(r.value) == Keys(Entries(Lookup(j.fields, "mcpServers").value).value)
  {
    if j.JObj? && Lookup(j.fields, "mcpServers").Some? then
      match Entries(Lookup(j.fields, "mcpServers").value)
      case Some(servers) => ValidateServers(servers)
      case None => None
    else None
  }
}
