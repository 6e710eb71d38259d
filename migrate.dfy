/** The `migrate` command (src/cli/actions/migrate.ts): it turns a plain MCP configuration
    file into a modular-mcp one. The user describes every server in turn. The described
    servers are written to the output file, and the original file is overwritten with a
    single entry that runs modular-mcp on that output file.

    Reading, parsing and validating the input file is an oracle (`Loaded`), as are the
    answers typed at each prompt, path resolution and the outcome of each file write. */
module Migrate {
  import opened Wrappers
  import opened Json

  const SchemaUrl := "https://raw.githubusercontent.com/d-kimuson/modular-mcp/refs/heads/main/config-schema.json"
  const DefaultOutputPath := "modular-mcp.json"
  const EmptyDescription := "Description cannot be empty"
  /** The message of an entry whose type is not recognised: the entry object is
      interpolated into the template, which gives `[object Object]`. */
  const UnknownServerType := "Unknown server type: [object Object]"

  // ---------------------------------------------------------------- trimming

  /** ECMAScript's WhiteSpace and LineTerminator characters, which `String.prototype.trim`
      removes. */
  predicate IsWhitespace(c: char) {
    c == '\t' || c == '\n' || c == '\U{000B}' || c == '\U{000C}' || c == '\r' || c == ' ' ||
    c == '\U{00A0}' || c == '\U{1680}' || ('\U{2000}' <= c <= '\U{200A}') ||
    c == '\U{2028}' || c == '\U{2029}' || c == '\U{202F}' || c == '\U{205F}' || c == '\U{3000}' || c == '\U{FEFF}'
  }

  function TrimStart(s: string): string {
    if s != [] && IsWhitespace(s[0]) then TrimStart(s[1..]) else s
  }

  function TrimEnd(s: string): string {
    if s != [] && IsWhitespace(s[|s| - 1]) then TrimEnd(s[..|s| - 1]) else s
  }

  /** `s.trim()` */
  function Trim(s: string): string {
    TrimEnd(TrimStart(s))
  }

  /** Dropping the leading white space leaves a suffix, and all that was dropped is white
      space. */
  lemma {:induction false} TrimStartSpec(s: string)
    ensures var r := TrimStart(s);
      |r| <= |s| && r == s[|s| - |r|..] &&
      (forall i :: 0 <= i < |s| - |r| ==> IsWhitespace(s[i])) &&
      (r != [] ==> !IsWhitespace(r[0]))
  {
    if s != [] && IsWhitespace(s[0]) {
      TrimStartSpec(s[1..]);
      var r := TrimStart(s[1..]);
      assert s[1..][|s| - 1 - |r|..] == s[|s| - |r|..];
      forall i | 0 <= i < |s| - |r|
        ensures IsWhitespace(s[i])
      {
        if i > 0 {
          assert s[i] == s[1..][i - 1];
        }
      }
    }
  }

  /** Dropping the trailing white space leaves a prefix, and all that was dropped is white
      space. */
  lemma {:induction false} TrimEndSpec(s: string)
    ensures var r := TrimEnd(s);
      |r| <= |s| && r == s[..|r|] &&
      (forall i :: |r| <= i < |s| ==> IsWhitespace(s[i])) &&
      (r != [] ==> !IsWhitespace(r[|r| - 1]))
  {
    if s != [] && IsWhitespace(s[|s| - 1]) {
      TrimEndSpec(s[..|s| - 1]);
      var r := TrimEnd(s[..|s| - 1]);
      assert s[..|s| - 1][..|r|] == s[..|r|];
      forall i | |r| <= i < |s|
        ensures IsWhitespace(s[i])
      {
        if i < |s| - 1 {
          assert s[i] == s[..|s| - 1][i];
        }
      }
    }
  }

  /** The trimmed string is empty exactly when all of `s` is white space; otherwise it
      starts and ends with a character that is not white space. */
  lemma TrimSpec(s: string)
    ensures Trim(s) == [] <==> forall i :: 0 <= i < |s| ==> IsWhitespace(s[i])
    ensures Trim(s) != [] ==> !IsWhitespace(Trim(s)[0]) && !IsWhitespace(Trim(s)[|Trim(s)| - 1])
  {
    var t := TrimStart(s);
    TrimStartSpec(s);
    TrimEndSpec(t);
    var r := TrimEnd(t);
    assert forall i :: |s| - |t| <= i < |s| ==> s[i] == t[i - (|s| - |t|)];
    if r == [] {
      assert |t| == 0;
    } else {
      assert r[0] == t[0] == s[|s| - |t|];
    }
  }

  lemma {:induction false} TrimStartPadded(pre: string, rest: string)
    requires forall i :: 0 <= i < |pre| ==> IsWhitespace(pre[i])
    requires rest == [] || !IsWhitespace(rest[0])
    ensures TrimStart(pre + rest) == rest
  {
    if pre != [] {
      assert (pre + rest)[1..] == pre[1..] + rest;
      TrimStartPadded(pre[1..], rest);
    } else {
      assert pre + rest == rest;
    }
  }

  lemma {:induction false} TrimEndPadded(body: string, post: string)
    requires forall i :: 0 <= i < |post| ==> IsWhitespace(post[i])
    requires body == [] || !IsWhitespace(body[|body| - 1])
    ensures TrimEnd(body + post) == body
  {
    if post != [] {
      var s := body + post;
      assert s[..|s| - 1] == body + post[..|post| - 1];
      TrimEndPadded(body, post[..|post| - 1]);
    } else {
      assert body + post == body;
    }
  }

  /** Trimming exactly undoes padding with white space on either side. */
  lemma TrimPadded(pre: string, body: string, post: string)
    requires forall i :: 0 <= i < |pre| ==> IsWhitespace(pre[i])
    requires forall i :: 0 <= i < |post| ==> IsWhitespace(post[i])
    requires body == [] || (!IsWhitespace(body[0]) && !IsWhitespace(body[|body| - 1]))
    ensures Trim(pre + body + post) == body
  {
    assert pre + body + post == pre + (body + post);
    if body == [] {
      assert body + post == post;
      TrimStartPadded(pre + post, []);
      assert pre + post + [] == pre + post;
    } else {
      TrimStartPadded(pre, body + post);
      TrimEndPadded(body, post);
    }
  }

  lemma TrimIdempotent(s: string)
    ensures Trim(Trim(s)) == Trim(s)
  {
    TrimSpec(s);
    var t := Trim(s);
    TrimPadded([], t, []);
    assert [] + t + [] == t;
  }

  // ---------------------------------------------------------------- prompting

  /** The prompt's `validate`: the error text for an empty or all-white-space input, and
      None (accepted) when something is left after trimming. */
  function Validate(input: string): (r: Option<string>)
    ensures r.None? ==> Trim(input) != []
    ensures r.Some? ==> r.value == EmptyDescription
  {
    if input == [] || |Trim(input)| == 0 then Some(EmptyDescription) else None
  }

  /** An input is accepted exactly when it has a character that is not white space. */
  lemma ValidateAccepts(input: string)
    ensures Validate(input).None? <==> exists i :: 0 <= i < |input| && !IsWhitespace(input[i])
  {
    TrimSpec(input);
  }

  /** A prompt keeps asking until an input is accepted: `inputs` are the user's successive
      inputs at one prompt, and the result is the position of the one that is accepted, or
      the length when none is. */
  function FirstAccepted(inputs: seq<string>): (i: nat)
    ensures i <= |inputs|
    ensures i < |inputs| ==> Validate(inputs[i]).None?
  {
    if inputs == [] || Validate(inputs[0]).None? then 0 else 1 + FirstAccepted(inputs[1..])
  }

  /** Every input before the accepted one was rejected with the error text. */
  lemma {:induction false} RejectedBeforeAccepted(inputs: seq<string>, j: nat)
    requires j < FirstAccepted(inputs)
    ensures Validate(inputs[j]) == Some(EmptyDescription)
  {
    if j > 0 {
      RejectedBeforeAccepted(inputs[1..], j - 1);
    }
  }

  predicate Answered(inputs: seq<string>) {
    FirstAccepted(inputs) < |inputs|
  }

  /** The stored description of an answered prompt: the accepted input, trimmed. */
  function Description(inputs: seq<string>): (d: string)
    requires Answered(inputs)
    ensures d != []
  {
    Trim(inputs[FirstAccepted(inputs)])
  }

  /** A stored description has no white space at either end, and trimming it again
      changes nothing. */
  lemma DescriptionTrimmed(inputs: seq<string>)
    requires Answered(inputs)
    ensures var d := Description(inputs);
      !IsWhitespace(d[0]) && !IsWhitespace(d[|d| - 1]) && Trim(d) == d
  {
    TrimSpec(inputs[FirstAccepted(inputs)]);
    TrimIdempotent(inputs[FirstAccepted(inputs)]);
  }

  // ---------------------------------------------------------------- server labels

  /** `String(v)`, which a template literal applies to what it interpolates: arrays
      join their elements with commas, `null` elements giving nothing, and every other
      object gives `[object Object]`. */
  function Text(v: Json): string
    decreases v
  {
    match v
    case JNull => "null"
    case JBool(b) => if b then "true" else "false"
    case JNum(n) => if n < 0 then "-" + NatToString(-n) else NatToString(n)
    case JStr(s) => s
    case JArr(items) =>
      if items == [] then []
      else Join(seq(|items|, i requires 0 <= i < |items| => if items[i] == JNull then "" else Text(items[i])))
    case JObj(_) => "[object Object]"
  }

  /** The strings joined with commas between them. */
  function Join(parts: seq<string>): string
    requires parts != []
  {
    if |parts| == 1 then parts[0] else Join(parts[..|parts| - 1]) + "," + parts[|parts| - 1]
  }

  /** A property as a template interpolates it: `undefined` when it is absent. */
  function Interpolated(entry: Fields, k: string): (s: string)
    ensures Lookup(entry, k) == None ==> s == "undefined"
    ensures forall t :: Lookup(entry, k) == Some(JStr(t)) ==> s == t
  {
    match Lookup(entry, k)
    case Some(v) => Text(v)
    case None => "undefined"
  }

  /** JavaScript truthiness; fractional and non-finite numbers are not modelled. */
  predicate Truthy(v: Json) {
    match v
    case JNull => false
    case JBool(b) => b
    case JNum(n) => n != 0
    case JStr(s) => s != ""
    case _ => true
  }

  /** `serverConfig.type || "stdio"`: the `type` value unless it is absent or falsy. */
  function ServerType(entry: Fields): (t: Json)
    ensures t == JStr("stdio") || Lookup(entry, "type") == Some(t)
    ensures Lookup(entry, "type") == None ==> t == JStr("stdio")
    ensures forall v :: Lookup(entry, "type") == Some(v) && Truthy(v) ==> t == v
  {
    match Lookup(entry, "type")
    case Some(v) => if Truthy(v) then v else JStr("stdio")
    case None => JStr("stdio")
  }

  /** The label of an entry as the code computes it: a strict comparison of the `type`
      property, so an entry without `type` raises. */
  function ServerInfoAsWritten(entry: Fields): (r: Result<string, string>)
    ensures r.Ok? <==> Lookup(entry, "type") in {Some(JStr("stdio")), Some(JStr("http")), Some(JStr("sse"))}
    ensures r.Err? ==> r.error == UnknownServerType
  {
    var t := Lookup(entry, "type");
    if t == Some(JStr("stdio")) then Ok("command: " + Interpolated(entry, "command"))
    else if t == Some(JStr("http")) then Ok("http: " + Interpolated(entry, "url"))
    else if t == Some(JStr("sse")) then Ok("sse: " + Interpolated(entry, "url"))
    else Err(UnknownServerType)
  }

  /** The label with the comparison made on the server type the prompt shows, so that an
      entry without `type` is labelled as the stdio entry it is shown as. */
  function ServerInfo(entry: Fields): (r: Result<string, string>)
    ensures r.Ok? <==> ServerType(entry) in {JStr("stdio"), JStr("http"), JStr("sse")}
    ensures r.Err? ==> r.error == UnknownServerType
    ensures r.Ok? && ServerType(entry) == JStr("stdio") ==> r.value == "command: " + Interpolated(entry, "command")
    ensures r.Ok? && ServerType(entry) != JStr("stdio") ==> r.value == ServerType(entry).s + ": " + Interpolated(entry, "url")
  {
    var t := ServerType(entry);
    if t == JStr("stdio") then Ok("command: " + Interpolated(entry, "command"))
    else if t == JStr("http") then Ok("http: " + Interpolated(entry, "url"))
    else if t == JStr("sse") then Ok("sse: " + Interpolated(entry, "url"))
    else Err(UnknownServerType)
  }

  /** The two labels agree whenever the entry names its type. */
  lemma LabelsAgreeWhenTyped(entry: Fields)
    requires Lookup(entry, "type").Some? && Truthy(Lookup(entry, "type").value)
    ensures ServerInfo(entry) == ServerInfoAsWritten(entry)
  {
  }

  /** An entry without `type` is shown to the user as a stdio entry, but the code as
      written raises on it; the corrected label is its command. */
  lemma UntypedEntryRaisesAsWritten(command: string)
    ensures var entry := [("command", JStr(command))];
      ServerType(entry) == JStr("stdio") &&
      ServerInfoAsWritten(entry) == Err(UnknownServerType) &&
      ServerInfo(entry) == Ok("command: " + command)
  {
    var entry := [("command", JStr(command))];
    assert Lookup(entry, "type") == None;
    assert Lookup(entry, "command") == Some(JStr(command));
  }

  /** A prompt, kept symbolic so that reasoning about the prompts shown never unfolds its
      text: the server's name, the type shown and the label (`info`). `PromptText` spells it out. */
  datatype Prompt = Prompt(server: string, serverType: Json, info: string)

  function PromptText(p: Prompt): string {
    "Enter description for server \"" + p.server + "\" (" + Text(p.serverType) + ", " + p.info + "):"
  }

  /** The prompt of one server. */
  function PromptMessage(name: string, entry: Fields): Prompt
    requires ServerInfo(entry).Ok?
  {
    Prompt(name, ServerType(entry), ServerInfo(entry).value)
  }

  // ---------------------------------------------------------------- output documents

  /** `{description, ...serverConfig}` */
  function OutputEntry(description: string, entry: Fields): Fields {
    Spread([("description", JStr(description))], entry)
  }

  lemma {:induction false} SpreadKeepsFirst<V>(base: seq<(string, V)>, extra: seq<(string, V)>)
    requires base != []
    ensures Spread(base, extra) != [] && Spread(base, extra)[0].0 == base[0].0
    decreases |extra|
  {
    if extra != [] {
      var next := Set(base, extra[0].0, extra[0].1);
      SetKeepsOrder(base, extra[0].0, extra[0].1);
      assert Keys(next)[0] == Keys(base)[0];
      SpreadKeepsFirst(next, extra[1..]);
    }
  }

  /** An output entry starts with `description`; every property of the server entry is
      kept with its value, the server's own `description` included, and otherwise the
      description is the given one. */
  lemma OutputEntryFields(description: string, entry: Fields)
    requires DistinctKeys(entry)
    ensures var out := OutputEntry(description, entry);
      out != [] && out[0].0 == "description" && DistinctKeys(out) &&
      (forall k :: HasKey(entry, k) ==> Lookup(out, k) == Lookup(entry, k)) &&
      (forall k :: !HasKey(entry, k) && k != "description" ==> Lookup(out, k) == None) &&
      (!HasKey(entry, "description") ==> Lookup(out, "description") == Some(JStr(description)))
  {
    SpreadKeepsFirst([("description", JStr(description))], entry);
  }

  /** The output's servers: each input server, in order, under its name, with its
      description. */
  function Migrated(servers: seq<(string, Fields)>, descriptions: seq<string>): Fields
    requires |descriptions| == |servers|
  {
    seq(|servers|, j requires 0 <= j < |servers| => (servers[j].0, JObj(OutputEntry(descriptions[j], servers[j].1))))
  }

  /** The output lists exactly the input's server names, in the same order. */
  lemma MigratedKeys(servers: seq<(string, Fields)>, descriptions: seq<string>)
    requires |descriptions| == |servers|
    ensures Keys(Migrated(servers, descriptions)) == Keys(servers)
    ensures DistinctKeys(servers) ==> DistinctKeys(Migrated(servers, descriptions))
  {
    var m := Migrated(servers, descriptions);
    assert Keys(m) == Keys(servers) by {
      assert forall j :: 0 <= j < |m| ==> Keys(m)[j] == Keys(servers)[j];
    }
    if DistinctKeys(servers) {
      SameKeysDistinct(servers, m);
    }
  }

  lemma {:induction false} SameKeysHasKey<V, W>(a: seq<(string, V)>, b: seq<(string, W)>, k: string)
    requires Keys(a) == Keys(b)
    ensures HasKey(a, k) == HasKey(b, k)
  {
    if a != [] {
      assert Keys(a)[0] == Keys(b)[0];
      assert Keys(a[1..]) == Keys(a)[1..] && Keys(b[1..]) == Keys(b)[1..];
      SameKeysHasKey(a[1..], b[1..], k);
    }
  }

  lemma {:induction false} SameKeysDistinct<V, W>(a: seq<(string, V)>, b: seq<(string, W)>)
    requires Keys(a) == Keys(b) && DistinctKeys(a)
    ensures DistinctKeys(b)
  {
    if a != [] {
      assert Keys(a)[0] == Keys(b)[0];
      assert Keys(a[1..]) == Keys(a)[1..] && Keys(b[1..]) == Keys(b)[1..];
      SameKeysHasKey(a[1..], b[1..], a[0].0);
      SameKeysDistinct(a[1..], b[1..]);
    }
  }

  /** The modular configuration written to the output path. */
  function ModularConfig(servers: Fields): Json {
    JObj([("$schema", JStr(SchemaUrl)), ("mcpServers", JObj(servers))])
  }

  /** The entry that replaces the original file's servers: stdio, running `npx` on the
      published package with the output path as its last argument, and an empty `env`. */
  function InstallerEntry(outputPath: string): Fields {
    [("type", JStr("stdio")), ("command", JStr("npx")),
     ("args", StringArray(["-y", "@kimuson/modular-mcp", outputPath])), ("env", JObj([]))]
  }

  function InstallerConfig(outputPath: string): Json {
    JObj([("mcpServers", JObj([("modular-mcp", JObj(InstallerEntry(outputPath)))]))])
  }

  // ---------------------------------------------------------------- the command

  /** What reading, `JSON.parse` and validation of the input file gave: the servers of a
      valid file, as `Object.entries(mcpServers)`. */
  datatype Loaded = Unreadable | Invalid | Parsed(servers: seq<(string, Fields)>)

  predicate WellFormed(loaded: Loaded) {
    loaded.Parsed? ==> DistinctKeys(loaded.servers)
  }

  /** How a run ends: it completes, raises, or waits on the prompt of a server whose
      inputs ran out without one being accepted. */
  datatype Ending = Completed | Raised(message: string) | AwaitingDescription(server: string)

  /** A server stops the run when its label raises or its prompt is never answered. */
  predicate Blocked(entry: Fields, inputs: seq<string>) {
    ServerInfo(entry).Err? || !Answered(inputs)
  }

  /** The first server from position `k` on that stops the run, or the number of servers
      when there is none. */
  function StopFrom(servers: seq<(string, Fields)>, inputs: seq<seq<string>>, k: nat): (i: nat)
    requires k <= |servers| && |inputs| == |servers|
    ensures k <= i <= |servers|
    ensures i < |servers| ==> Blocked(servers[i].1, inputs[i])
    decreases |servers| - k
  {
    if k == |servers| || Blocked(servers[k].1, inputs[k]) then k else StopFrom(servers, inputs, k + 1)
  }

  /** Every server from position `k` up to the one that stops the run is labelled and
      answered. */
  lemma {:induction false} UnblockedBeforeStop(servers: seq<(string, Fields)>, inputs: seq<seq<string>>, k: nat, j: nat)
    requires |inputs| == |servers| && k <= j < |servers| && j < StopFrom(servers, inputs, k)
    ensures ServerInfo(servers[j].1).Ok? && Answered(inputs[j])
    decreases j - k
  {
    if k < j {
      UnblockedBeforeStop(servers, inputs, k + 1, j);
    }
  }

  function Stop(servers: seq<(string, Fields)>, inputs: seq<seq<string>>): (i: nat)
    requires |inputs| == |servers|
    ensures i <= |servers|
    ensures i < |servers| ==> Blocked(servers[i].1, inputs[i])
  {
    StopFrom(servers, inputs, 0)
  }

  /** The descriptions of the first `n` servers. */
  function Descriptions(inputs: seq<seq<string>>, n: nat): (ds: seq<string>)
    requires n <= |inputs| && forall j :: 0 <= j < n ==> Answered(inputs[j])
    ensures |ds| == n && forall j :: 0 <= j < n ==> ds[j] == Description(inputs[j])
  {
    seq(n, j requires 0 <= j < n => Description(inputs[j]))
  }

  /** The prompts shown from server `k` on: a server whose label raises shows none and
      ends the run; one whose prompt is never answered shows its prompt and ends it. */
  function PromptsFrom(servers: seq<(string, Fields)>, inputs: seq<seq<string>>, k: nat): seq<Prompt>
    requires k <= |servers| && |inputs| == |servers|
    decreases |servers| - k
  {
    if k == |servers| || ServerInfo(servers[k].1).Err? then []
    else [PromptMessage(servers[k].0, servers[k].1)] + (if Answered(inputs[k]) then PromptsFrom(servers, inputs, k + 1) else [])
  }

  /** How `PromptsFrom` and `StopFrom` move on by one server. */
  lemma PromptsStep(servers: seq<(string, Fields)>, inputs: seq<seq<string>>, k: nat)
    requires k < |servers| && |inputs| == |servers|
    ensures ServerInfo(servers[k].1).Err? ==> PromptsFrom(servers, inputs, k) == [] && StopFrom(servers, inputs, k) == k
    ensures ServerInfo(servers[k].1).Ok? && !Answered(inputs[k]) ==>
      PromptsFrom(servers, inputs, k) == [PromptMessage(servers[k].0, servers[k].1)] && StopFrom(servers, inputs, k) == k
    ensures ServerInfo(servers[k].1).Ok? && Answered(inputs[k]) ==>
      PromptsFrom(servers, inputs, k) == [PromptMessage(servers[k].0, servers[k].1)] + PromptsFrom(servers, inputs, k + 1) &&
      StopFrom(servers, inputs, k) == StopFrom(servers, inputs, k + 1)
  {
  }

  /** One prompt per server up to the one that stops the run, which shows its prompt only
      if its label did not raise. */
  lemma {:induction false} PromptsCount(servers: seq<(string, Fields)>, inputs: seq<seq<string>>, k: nat)
    requires k <= |servers| && |inputs| == |servers|
    ensures var stop := StopFrom(servers, inputs, k);
      |PromptsFrom(servers, inputs, k)| == if stop < |servers| && ServerInfo(servers[stop].1).Ok? then stop + 1 - k else stop - k
    decreases |servers| - k
  {
    if k < |servers| {
      PromptsStep(servers, inputs, k);
      if ServerInfo(servers[k].1).Ok? && Answered(inputs[k]) {
        PromptsCount(servers, inputs, k + 1);
      }
    }
  }

  /** Each prompt names its server, the server's type and its label: the prompt shown
      for server `i` is at position `i - k` of the prompts from server `k` on. */
  lemma {:induction false} PromptAt(servers: seq<(string, Fields)>, inputs: seq<seq<string>>, k: nat, i: nat)
    requires k <= i && |inputs| == |servers| && i < |servers| && i - k < |PromptsFrom(servers, inputs, k)|
    ensures ServerInfo(servers[i].1).Ok?
    ensures PromptsFrom(servers, inputs, k)[i - k] == PromptMessage(servers[i].0, servers[i].1)
    decreases i - k
  {
    PromptsStep(servers, inputs, k);
    if k < i {
      var rest := PromptsFrom(servers, inputs, k + 1);
      assert PromptsFrom(servers, inputs, k) == [PromptMessage(servers[k].0, servers[k].1)] + rest;
      PromptAt(servers, inputs, k + 1, i);
      assert PromptsFrom(servers, inputs, k)[i - k] == rest[i - (k + 1)];
    }
  }

  /** `serverDescriptions` after the first `n` servers. */
  function DescriptionMap(servers: seq<(string, Fields)>, inputs: seq<seq<string>>, n: nat): map<string, string>
    requires |inputs| == |servers| && n <= |servers| && forall j :: 0 <= j < n ==> Answered(inputs[j])
  {
    if n == 0 then map[]
    else DescriptionMap(servers, inputs, n - 1)[servers[n - 1].0 := Description(inputs[n - 1])]
  }

  lemma DescriptionMapStep(servers: seq<(string, Fields)>, inputs: seq<seq<string>>, n: nat)
    requires |inputs| == |servers| && n < |servers| && forall j :: 0 <= j <= n ==> Answered(inputs[j])
    ensures DescriptionMap(servers, inputs, n + 1) == DescriptionMap(servers, inputs, n)[servers[n].0 := Description(inputs[n])]
  {
  }

  /** With distinct names, every described server maps to its own description. */
  lemma {:induction false} DescriptionMapAt(servers: seq<(string, Fields)>, inputs: seq<seq<string>>, n: nat, j: nat)
    requires |inputs| == |servers| && n <= |servers| && forall i :: 0 <= i < n ==> Answered(inputs[i])
    requires DistinctKeys(servers) && j < n
    ensures servers[j].0 in DescriptionMap(servers, inputs, n)
    ensures DescriptionMap(servers, inputs, n)[servers[j].0] == Description(inputs[j])
  {
    DescriptionMapStep(servers, inputs, n - 1);
    if j < n - 1 {
      KeysBefore(servers, n - 1);
      assert servers[j].0 != servers[n - 1].0;
      DescriptionMapAt(servers, inputs, n - 1, j);
    }
  }

  /** The first loop: each server is labelled, then prompted for, and its trimmed answer
      recorded under its name, until a server stops the run. */
  method CollectDescriptions(servers: seq<(string, Fields)>, inputs: seq<seq<string>>)
    returns (prompts: seq<Prompt>, serverDescriptions: map<string, string>, stopped: Option<Ending>)
    requires |inputs| == |servers| && DistinctKeys(servers)
    ensures prompts == PromptsFrom(servers, inputs, 0)
    ensures var stop := Stop(servers, inputs);
      stop < |servers| ==>
        stopped == Some(if ServerInfo(servers[stop].1).Err? then Raised(UnknownServerType) else AwaitingDescription(servers[stop].0))
    ensures Stop(servers, inputs) == |servers| ==>
      stopped == None && (forall j :: 0 <= j < |servers| ==> Answered(inputs[j])) &&
      serverDescriptions == DescriptionMap(servers, inputs, |servers|)
  {
    ghost var stop := Stop(servers, inputs);
    prompts, serverDescriptions := [], map[];
    var i := 0;
    while i < |servers|
      invariant 0 <= i <= |servers| && StopFrom(servers, inputs, i) == stop
      invariant prompts + PromptsFrom(servers, inputs, i) == PromptsFrom(servers, inputs, 0)
      invariant forall j :: 0 <= j < i ==> Answered(inputs[j])
      invariant serverDescriptions == DescriptionMap(servers, inputs, i)
    {
      var name := servers[i].0;
      PromptsStep(servers, inputs, i);
      var info := ServerInfo(servers[i].1);
      if info.Err? {
        assert prompts + [] == prompts;
        return prompts, serverDescriptions, Some(Raised(info.error));
      }
      ghost var before := prompts;
      prompts := prompts + [PromptMessage(name, servers[i].1)];
      var answer := FirstAccepted(inputs[i]);
      if answer == |inputs[i]| {
        return prompts, serverDescriptions, Some(AwaitingDescription(name));
      }
      assert prompts + PromptsFrom(servers, inputs, i + 1) == before + PromptsFrom(servers, inputs, i);
      DescriptionMapStep(servers, inputs, i);
      serverDescriptions := serverDescriptions[name := Trim(inputs[i][answer])];
      i := i + 1;
    }
    assert prompts + [] == prompts;
    stopped := None;
  }

  lemma MigratedStep(servers: seq<(string, Fields)>, descriptions: seq<string>, i: nat)
    requires DistinctKeys(servers) && |descriptions| == |servers| && i < |servers|
    ensures Set(Migrated(servers[..i], descriptions[..i]), servers[i].0, JObj(OutputEntry(descriptions[i], servers[i].1)))
         == Migrated(servers[..i + 1], descriptions[..i + 1])
  {
    var before := Migrated(servers[..i], descriptions[..i]);
    MigratedKeys(servers[..i], descriptions[..i]);
    KeysBefore(servers, i);
    SameKeysHasKey(servers[..i], before, servers[i].0);
    var x := (servers[i].0, JObj(OutputEntry(descriptions[i], servers[i].1)));
    SetAbsentAppends(before, x.0, x.1);
    var after := Migrated(servers[..i + 1], descriptions[..i + 1]);
    forall j | 0 <= j < i + 1
      ensures (before + [x])[j] == after[j]
    {
      if j < i {
        assert servers[..i + 1][j] == servers[..i][j] && descriptions[..i + 1][j] == descriptions[..i][j];
      }
    }
    assert before + [x] == after;
  }

  /** The second loop: `modularConfig.mcpServers[serverName] = {description, ...serverConfig}`
      for each server in order. */
  method BuildServers(servers: seq<(string, Fields)>, serverDescriptions: map<string, string>, ghost descriptions: seq<string>)
    returns (mcpServers: Fields)
    requires DistinctKeys(servers) && |descriptions| == |servers|
    requires forall j :: 0 <= j < |servers| ==>
      servers[j].0 in serverDescriptions && serverDescriptions[servers[j].0] == descriptions[j]
    ensures mcpServers == Migrated(servers, descriptions)
  {
    mcpServers := [];
    var i := 0;
    while i < |servers|
      invariant 0 <= i <= |servers|
      invariant mcpServers == Migrated(servers[..i], descriptions[..i])
    {
      MigratedStep(servers, descriptions, i);
      mcpServers := Set(mcpServers, servers[i].0, JObj(OutputEntry(serverDescriptions[servers[i].0], servers[i].1)));
      i := i + 1;
    }
    assert servers[..i] == servers && descriptions[..i] == descriptions;
  }

  /** `migrateAction`. `inputs[j]` are the inputs typed at the prompt of the `j`-th
      server, `resolve` is `path.resolve`, and the two flags say whether the write of the
      output file and that of the original file succeed. `writes` lists the files
      written, in order; the output path depends on `outputPath` alone. */
  method MigrateAction(configPath: string, outputPath: Option<string>, loaded: Loaded, inputs: seq<seq<string>>,
                       resolve: string -> string, outputWritten: bool, originalWritten: bool)
    returns (prompts: seq<Prompt>, writes: seq<(string, Json)>, ending: Ending)
    requires WellFormed(loaded)
    requires loaded.Parsed? ==> |inputs| == |loaded.servers|
    ensures loaded.Unreadable? ==>
      prompts == [] && writes == [] && ending == Raised("Failed to read or parse configuration file: " + resolve(configPath))
    ensures loaded.Invalid? ==>
      prompts == [] && writes == [] && ending == Raised("Invalid MCP configuration file format: " + resolve(configPath))
    ensures loaded.Parsed? ==>
      var servers := loaded.servers;
      var stop := Stop(servers, inputs);
      prompts == PromptsFrom(servers, inputs, 0) &&
      (stop < |servers| ==>
         (writes == [] &&
          ending == if ServerInfo(servers[stop].1).Err? then Raised(UnknownServerType) else AwaitingDescription(servers[stop].0)))
    ensures loaded.Parsed? && Stop(loaded.servers, inputs) == |loaded.servers| ==>
      var servers := loaded.servers;
      (forall j :: 0 <= j < |servers| ==> Answered(inputs[j])) &&
      var finalPath := resolve(outputPath.GetOr(DefaultOutputPath));
      var output := (finalPath, ModularConfig(Migrated(servers, Descriptions(inputs, |servers|))));
      var original := (resolve(configPath), InstallerConfig(finalPath));
      if !outputWritten then
        writes == [] && ending == Raised("Failed to write modular-mcp configuration file: " + finalPath)
      else if !originalWritten then
        writes == [output] && ending == Raised("Failed to update original configuration file: " + resolve(configPath))
      else
        writes == [output, original] && ending == Completed
  {
    var absolutePath := resolve(configPath);
    writes := [];
    if loaded.Unreadable? {
      return [], writes, Raised("Failed to read or parse configuration file: " + absolutePath);
    }
    if loaded.Invalid? {
      return [], writes, Raised("Invalid MCP configuration file format: " + absolutePath);
    }
    var servers := loaded.servers;
    var serverDescriptions, stopped;
    prompts, serverDescriptions, stopped := CollectDescriptions(servers, inputs);
    if stopped.Some? {
      return prompts, writes, stopped.value;
    }
    ghost var descriptions := Descriptions(inputs, |servers|);
    forall j | 0 <= j < |servers|
      ensures servers[j].0 in serverDescriptions && serverDescriptions[servers[j].0] == descriptions[j]
    {
      DescriptionMapAt(servers, inputs, |servers|, j);
    }
    var mcpServers := BuildServers(servers, serverDescriptions, descriptions);

    var finalOutputPath := resolve(outputPath.GetOr(DefaultOutputPath));
    if !outputWritten {
      return prompts, writes, Raised("Failed to write modular-mcp configuration file: " + finalOutputPath);
    }
    writes := writes + [(finalOutputPath, ModularConfig(mcpServers))];
    if !originalWritten {
      return prompts, writes, Raised("Failed to update original configuration file: " + absolutePath);
    }
    writes := writes + [(absolutePath, InstallerConfig(finalOutputPath))];
    return prompts, writes, Completed;
  }

  /** With distinct names, the `i`-th name is not among the ones before it. */
  lemma KeysBefore<V>(servers: seq<(string, V)>, i: nat)
    requires DistinctKeys(servers) && i < |servers|
    ensures !HasKey(servers[..i], servers[i].0)
    ensures forall j :: 0 <= j < i ==> servers[j].0 != servers[i].0
  {
    assert servers == servers[..i] + servers[i..];
    assert servers[i..][0] == servers[i];
    KeyNotBefore(servers[..i], servers[i..], servers[i].0);
    forall j | 0 <= j < i ensures servers[j].0 != servers[i].0 {
      KeyAt(servers[..i], j);
    }
  }

  lemma {:induction false} KeyAt<V>(fields: seq<(string, V)>, j: nat)
    requires j < |fields|
    ensures HasKey(fields, fields[j].0)
  {
    if j > 0 {
      KeyAt(fields[1..], j - 1);
    }
  }
}
