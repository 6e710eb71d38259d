/** Environment-variable interpolation in configuration strings (src/utils/envSubstitution.ts).

    The source performs one global regular-expression replace with the pattern
    `\$\{([A-Za-z_][A-Za-z0-9_]*)\}|\$([A-Za-z_][A-Za-z0-9_]*)`: at every `$` it first tries
    the braced form, then the bare form, and a `$` that starts neither is kept. The
    environment (`process.env`) is a parameter. */
module EnvSubstitution {
  import opened Wrappers

  type Env = map<string, string>

  predicate IsNameStart(c: char) {
    ('A' <= c <= 'Z') || ('a' <= c <= 'z') || c == '_'
  }

  predicate IsNameChar(c: char) {
    IsNameStart(c) || ('0' <= c <= '9')
  }

  /** `[A-Za-z_][A-Za-z0-9_]*` */
  predicate IsName(n: string) {
    |n| >= 1 && IsNameStart(n[0]) && forall i :: 1 <= i < |n| ==> IsNameChar(n[i])
  }

  /** The length of the longest prefix of `s` made of name characters: the regex's `*`
      is greedy. */
  function NameLength(s: string): (n: nat)
    ensures n <= |s|
    ensures forall i :: 0 <= i < n ==> IsNameChar(s[i])
    ensures n < |s| ==> !IsNameChar(s[n])
  {
    if s != [] && IsNameChar(s[0]) then 1 + NameLength(s[1..]) else 0
  }

  /** A name followed by a non-name character (or nothing) is read in full. */
  lemma {:induction false} NameLengthOfName(n: string, rest: string)
    requires IsName(n)
    requires rest == [] || !IsNameChar(rest[0])
    ensures NameLength(n + rest) == |n|
  {
    var s := n + rest;
    if |n| > 1 {
      assert s[1..] == n[1..] + rest;
      assert IsName(n[1..]) || !IsNameStart(n[1]);
      NameLengthOfNonStart(n[1..], rest);
    } else {
      assert s[1..] == rest;
    }
  }

  /** Helper for NameLengthOfName: the tail of a name is read in full even when it
      starts with a digit. */
  lemma {:induction false} NameLengthOfNonStart(t: string, rest: string)
    requires forall i :: 0 <= i < |t| ==> IsNameChar(t[i])
    requires rest == [] || !IsNameChar(rest[0])
    ensures NameLength(t + rest) == |t|
  {
    if t == [] {
      assert t + rest == rest;
    } else {
      assert (t + rest)[1..] == t[1..] + rest;
      NameLengthOfNonStart(t[1..], rest);
    }
  }

  /** One match of the pattern: the variable name and the number of characters consumed. */
  datatype Match = Match(name: string, length: nat)

  /** The pattern's match at a `$`, if either alternative matches there. A `${` whose
      braced alternative fails does not fall back to the bare one: `{` is not a name
      character. */
  function MatchAt(s: string): (m: Option<Match>)
    requires |s| > 0 && s[0] == '$'
    ensures m.Some? ==> 2 <= m.value.length <= |s|
  {
    if |s| >= 2 && s[1] == '{' then
      if |s| >= 3 && IsNameStart(s[2]) && 2 + NameLength(s[2..]) < |s| && s[2 + NameLength(s[2..])] == '}' then
        var k := NameLength(s[2..]);
        Some(Match(s[2..2 + k], k + 3))
      else
        None
    else if |s| >= 2 && IsNameStart(s[1]) then
      var k := NameLength(s[1..]);
      Some(Match(s[1..1 + k], k + 1))
    else
      None
  }

  /** A match is `${name}` or `$name` for a well-formed name. */
  lemma MatchAtShape(s: string)
    requires |s| > 0 && s[0] == '$' && MatchAt(s).Some?
    ensures var m := MatchAt(s).value;
      IsName(m.name) &&
      (s[1] == '{' ==> m.length == |m.name| + 3 && s[..m.length] == "${" + m.name + "}") &&
      (s[1] != '{' ==> m.length == |m.name| + 1 && s[..m.length] == "$" + m.name)
  {
    var m := MatchAt(s).value;
    if s[1] == '{' {
      var k := NameLength(s[2..]);
      assert m.name == s[2..2 + k];
      assert forall i :: 0 <= i < k ==> m.name[i] == s[2..][i];
      assert s[..m.length] == s[..2] + s[2..2 + k] + [s[2 + k]];
    } else {
      var k := NameLength(s[1..]);
      assert m.name == s[1..1 + k];
      assert forall i :: 0 <= i < k ==> m.name[i] == s[1..][i];
      assert s[..m.length] == [s[0]] + s[1..1 + k];
    }
  }

  function UndefinedMessage(name: string): string {
    "Environment variable '" + name + "' is not defined"
  }

  /** `p` in front of a successful result; errors pass through. */
  function Prepend(p: string, r: Result<string, string>): Result<string, string> {
    match r
    case Ok(v) => Ok(p + v)
    case Err(e) => Err(e)
  }

  /** `substituteEnvVars`: one left-to-right pass; the first reference to an undefined
      variable raises. Inserted values are never rescanned. */
  function Subst(env: Env, s: string): Result<string, string>
    decreases |s|
  {
    if s == [] then Ok("")
    else if s[0] != '$' then Prepend([s[0]], Subst(env, s[1..]))
    else match MatchAt(s)
      case None => Prepend("$", Subst(env, s[1..]))
      case Some(m) =>
        if m.name !in env then Err(UndefinedMessage(m.name))
        else Prepend(env[m.name], Subst(env, s[m.length..]))
  }

  /** The names `s` references, in the order the pattern finds them. */
  function References(s: string): seq<string>
    decreases |s|
  {
    if s == [] then []
    else if s[0] != '$' then References(s[1..])
    else match MatchAt(s)
      case None => References(s[1..])
      case Some(m) => [m.name] + References(s[m.length..])
  }

  /** Substitution succeeds exactly when every referenced name is defined. */
  lemma {:induction false} SubstOkIffDefined(env: Env, s: string)
    ensures Subst(env, s).Ok? <==> forall i :: 0 <= i < |References(s)| ==> References(s)[i] in env
    decreases |s|
  {
    if s == [] {
    } else if s[0] != '$' {
      SubstOkIffDefined(env, s[1..]);
      assert References(s) == References(s[1..]);
      assert Subst(env, s) == Prepend([s[0]], Subst(env, s[1..]));
    } else {
      match MatchAt(s)
      case None =>
        SubstOkIffDefined(env, s[1..]);
        assert References(s) == References(s[1..]);
        assert Subst(env, s) == Prepend("$", Subst(env, s[1..]));
      case Some(m) =>
        var rest := s[m.length..];
        var refs := References(s);
        assert refs == [m.name] + References(rest);
        if m.name in env {
          SubstOkIffDefined(env, rest);
          assert Subst(env, s) == Prepend(env[m.name], Subst(env, rest));
          if Subst(env, rest).Ok? {
            forall i | 0 <= i < |refs|
              ensures refs[i] in env
            {
              if i > 0 { assert refs[i] == References(rest)[i - 1]; }
            }
          } else {
            var i :| 0 <= i < |References(rest)| && References(rest)[i] !in env;
            assert refs[i + 1] == References(rest)[i];
          }
        } else {
          assert refs[0] == m.name;
        }
    }
  }

  /** `refs[i]` is the first name of `refs` that `env` does not define. */
  predicate FirstUndefinedAt(env: Env, refs: seq<string>, i: nat) {
    i < |refs| && refs[i] !in env && forall j :: 0 <= j < i ==> refs[j] in env
  }

  /** A defined name in front moves the first undefined one back by one place. */
  lemma FirstUndefinedShift(env: Env, name: string, refs: seq<string>, i: nat)
    requires name in env && FirstUndefinedAt(env, refs, i)
    ensures FirstUndefinedAt(env, [name] + refs, i + 1)
  {
    var all := [name] + refs;
    assert forall j :: 1 <= j < i + 1 ==> all[j] == refs[j - 1];
  }

  /** One step of the scan, for `Subst` and `References` alike: a character that starts
      no reference is copied, and a reference is looked up. */
  lemma SubstStep(env: Env, s: string)
    requires s != []
    ensures s[0] != '$' || MatchAt(s).None? ==>
      Subst(env, s) == Prepend([s[0]], Subst(env, s[1..])) && References(s) == References(s[1..])
    ensures s[0] == '$' && MatchAt(s).Some? ==>
      var m := MatchAt(s).value;
      References(s) == [m.name] + References(s[m.length..]) &&
      Subst(env, s) == if m.name in env then Prepend(env[m.name], Subst(env, s[m.length..])) else Err(UndefinedMessage(m.name))
  {
  }

  /** A failing substitution reports the first reference to an undefined name. */
  lemma {:induction false} SubstFailsOnFirstUndefined(env: Env, s: string)
    requires Subst(env, s).Err?
    ensures exists i: nat :: FirstUndefinedAt(env, References(s), i) && Subst(env, s).error == UndefinedMessage(References(s)[i])
    decreases |s|
  {
    SubstStep(env, s);
    if s[0] != '$' || MatchAt(s).None? {
      SubstFailsOnFirstUndefined(env, s[1..]);
    } else {
      var m := MatchAt(s).value;
      var rest := s[m.length..];
      if m.name !in env {
        assert FirstUndefinedAt(env, References(s), 0);
      } else {
        SubstFailsOnFirstUndefined(env, rest);
        var i: nat :| FirstUndefinedAt(env, References(rest), i) && Subst(env, rest).error == UndefinedMessage(References(rest)[i]);
        FirstUndefinedShift(env, m.name, References(rest), i);
        assert References(s)[i + 1] == References(rest)[i];
      }
    }
  }

  lemma PrependAssoc(p: string, q: string, r: Result<string, string>)
    ensures Prepend(p, Prepend(q, r)) == Prepend(p + q, r)
  {
    if r.Ok? {
      assert p + (q + r.value) == (p + q) + r.value;
    }
  }

  /** A prefix without `$` is copied and the rest is substituted on its own. */
  lemma {:induction false} PlainPrefix(env: Env, p: string, q: string)
    requires '$' !in p
    ensures Subst(env, p + q) == Prepend(p, Subst(env, q))
  {
    if p == [] {
      assert p + q == q;
      assert Prepend(p, Subst(env, q)) == Subst(env, q) by {
        if Subst(env, q).Ok? { assert p + Subst(env, q).value == Subst(env, q).value; }
      }
    } else {
      assert (p + q)[0] == p[0] && (p + q)[1..] == p[1..] + q;
      PlainPrefix(env, p[1..], q);
      PrependAssoc([p[0]], p[1..], Subst(env, q));
      assert [p[0]] + p[1..] == p;
    }
  }

  /** A string with no `$`, the empty string among them, comes back unchanged. */
  lemma NoDollarUnchanged(env: Env, s: string)
    requires '$' !in s
    ensures Subst(env, s) == Ok(s)
  {
    PlainPrefix(env, s, "");
    assert s + "" == s;
  }

  /** `${NAME}` anywhere after a `$`-free prefix is replaced by the variable's value (the
      empty value included), or raises when the variable is undefined. */
  lemma BracedReference(env: Env, p: string, n: string, q: string)
    requires '$' !in p && IsName(n)
    ensures Subst(env, p + ("${" + n + "}") + q) ==
      if n in env then Prepend(p + env[n], Subst(env, q)) else Err(UndefinedMessage(n))
  {
    var t := "${" + n + "}" + q;
    assert p + ("${" + n + "}") + q == p + t;
    PlainPrefix(env, p, t);
    assert t[2..] == n + ("}" + q);
    NameLengthOfName(n, "}" + q);
    assert t[2..2 + |n|] == n && t[2 + |n|] == '}' && t[|n| + 3..] == q;
    assert MatchAt(t) == Some(Match(n, |n| + 3));
    if n in env {
      PrependAssoc(p, env[n], Subst(env, q));
    }
  }

  /** Bare `$NAME` is substituted too (the pattern's second alternative); the name is taken
      greedily, up to the first character that cannot continue it. */
  lemma BareReference(env: Env, p: string, n: string, q: string)
    requires '$' !in p && IsName(n)
    requires q == [] || !IsNameChar(q[0])
    ensures Subst(env, p + ("$" + n) + q) ==
      if n in env then Prepend(p + env[n], Subst(env, q)) else Err(UndefinedMessage(n))
  {
    var t := "$" + n + q;
    assert p + ("$" + n) + q == p + t;
    PlainPrefix(env, p, t);
    assert t[0] == '$' && t[1] == n[0] && t[1..] == n + q;
    NameLengthOfName(n, q);
    assert t[1..1 + |n|] == n;
    assert MatchAt(t) == Some(Match(n, |n| + 1));
    assert t[|n| + 1..] == q;
    assert Subst(env, t) == if n in env then Prepend(env[n], Subst(env, q)) else Err(UndefinedMessage(n));
    if n in env {
      PrependAssoc(p, env[n], Subst(env, q));
    }
  }

  /** A `$` followed by nothing, or by a character that neither starts a name nor is `{`,
      is kept as it is. */
  lemma LoneDollarKept(env: Env, q: string)
    requires q == [] || (!IsNameStart(q[0]) && q[0] != '{')
    ensures Subst(env, "$" + q) == Prepend("$", Subst(env, q))
  {
    assert ("$" + q)[1..] == q;
  }

  /** `${` not followed by a well-formed `name}` is kept as it is. */
  lemma MalformedBraceKept(env: Env, t: string)
    requires forall k :: 0 < k < |t| && t[k] == '}' ==> !IsName(t[..k])
    ensures Subst(env, "${" + t) == Prepend("${", Subst(env, t))
  {
    var s := "${" + t;
    assert s[2..] == t;
    assert MatchAt(s) == None;
    var u := s[1..];
    assert u == "{" + t && u[0] == '{' && u[1..] == t;
    assert Subst(env, u) == Prepend("{", Subst(env, t));
    assert Subst(env, s) == Prepend("$", Subst(env, u));
    PrependAssoc("$", "{", Subst(env, t));
    assert "$" + "{" == "${";
  }

  /** The dollar signs of the source's tests that are not references survive. */
  lemma DollarSignsThatAreNotReferences(env: Env)
    ensures Subst(env, "price: $100") == Ok("price: $100")
    ensures Subst(env, "$$") == Ok("$$")
    ensures Subst(env, "cost$") == Ok("cost$")
  {
    NoDollarUnchanged(env, "100");
    LoneDollarKept(env, "100");
    PlainPrefix(env, "price: ", "$100");
    assert "price: " + "$100" == "price: $100";
    assert "$" + "100" == "$100";
    NoDollarUnchanged(env, "");
    LoneDollarKept(env, "");
    LoneDollarKept(env, "$");
    assert "$" + "$" == "$$" && "$" + "" == "$";
    PlainPrefix(env, "cost", "$");
    assert "cost" + "$" == "cost$";
  }

  /** A reference on its own becomes exactly the variable's value: the inserted value is
      not scanned again, whatever references it contains. */
  lemma SinglePass(env: Env, n: string)
    requires IsName(n)
    ensures Subst(env, "${" + n + "}") == if n in env then Ok(env[n]) else Err(UndefinedMessage(n))
    ensures Subst(env, "$" + n) == if n in env then Ok(env[n]) else Err(UndefinedMessage(n))
  {
    BracedReference(env, "", n, "");
    assert "" + ("${" + n + "}") + "" == "${" + n + "}";
    BareReference(env, "", n, "");
    assert "" + ("$" + n) + "" == "$" + n;
    if n in env {
      assert "" + env[n] + "" == env[n];
    }
  }

  /** Names are read greedily: `$HOME_DIR` and `${HOME_DIR}` look up HOME_DIR, never
      HOME, whether or not HOME is defined. */
  lemma GreedyNames(env: Env, n: string, suffix: string)
    requires IsName(n) && suffix != []
    requires forall i :: 0 <= i < |suffix| ==> IsNameChar(suffix[i])
    requires n + suffix !in env
    ensures Subst(env, "$" + (n + suffix)) == Err(UndefinedMessage(n + suffix))
    ensures Subst(env, "${" + (n + suffix) + "}") == Err(UndefinedMessage(n + suffix))
  {
    var m := n + suffix;
    assert forall i :: 1 <= i < |m| ==> IsNameChar(m[i]) by {
      forall i | 1 <= i < |m|
        ensures IsNameChar(m[i])
      {
        if i >= |n| { assert m[i] == suffix[i - |n|]; } else { assert m[i] == n[i]; }
      }
    }
    SinglePass(env, m);
  }

  /** Adjacent references are each replaced. */
  lemma AdjacentReferences(env: Env, a: string, b: string)
    requires IsName(a) && IsName(b) && a in env && b in env
    ensures Subst(env, ("${" + a + "}") + ("${" + b + "}")) == Ok(env[a] + env[b])
  {
    var first, second := "${" + a + "}", "${" + b + "}";
    SinglePass(env, b);
    BracedReference(env, "", a, second);
    assert "" + first + second == first + second;
    assert "" + env[a] == env[a];
  }

  /** `substituteInArray`: `arr.map(substituteEnvVars)`; a new array of the same length,
      element by element, raising the first element's error. */
  function SubstituteInArray(env: Env, arr: seq<string>): (r: Result<seq<string>, string>)
    ensures r.Ok? <==> forall i :: 0 <= i < |arr| ==> Subst(env, arr[i]).Ok?
    ensures r.Ok? ==> |r.value| == |arr| && forall i :: 0 <= i < |arr| ==> Subst(env, arr[i]) == Ok(r.value[i])
    ensures r.Err? ==>
      exists i :: 0 <= i < |arr| && Subst(env, arr[i]) == Err(r.error) &&
        forall j :: 0 <= j < i ==> Subst(env, arr[j]).Ok?
  {
    if arr == [] then Ok([])
    else match Subst(env, arr[0])
      case Err(e) => Err(e)
      case Ok(v) =>
        match SubstituteInArray(env, arr[1..])
        case Err(e) =>
          assert forall j :: 0 <= j < |arr| - 1 ==> arr[1..][j] == arr[j + 1];
          Err(e)
        case Ok(vs) => Ok([v] + vs)
  }

  /** What `substituteInObject` computes: the same keys in the same order, each value
      substituted, or the error of the first value that fails. */
  function SubstitutedRecord(env: Env, rec: seq<(string, string)>): (r: Result<seq<(string, string)>, string>)
    ensures r.Ok? <==> forall i :: 0 <= i < |rec| ==> Subst(env, rec[i].1).Ok?
    ensures r.Ok? ==>
      |r.value| == |rec| &&
      forall i :: 0 <= i < |rec| ==> r.value[i].0 == rec[i].0 && Subst(env, rec[i].1) == Ok(r.value[i].1)
    ensures r.Err? ==>
      exists i :: 0 <= i < |rec| && Subst(env, rec[i].1) == Err(r.error) &&
        forall j :: 0 <= j < i ==> Subst(env, rec[j].1).Ok?
  {
    if rec == [] then Ok([])
    else
      var init := rec[..|rec| - 1];
      var last := rec[|rec| - 1];
      match SubstitutedRecord(env, init)
      case Err(e) => Err(e)
      case Ok(done) =>
        match Subst(env, last.1)
        case Err(e) => Err(e)
        case Ok(v) => Ok(done + [(last.0, v)])
  }

  /** `substituteInObject`: fills a fresh record entry by entry; the input is not changed
      (it is a value). */
  method SubstituteInObject(env: Env, obj: seq<(string, string)>) returns (r: Result<seq<(string, string)>, string>)
    ensures r == SubstitutedRecord(env, obj)
  {
    var result: seq<(string, string)> := [];
    for i := 0 to |obj|
      invariant SubstitutedRecord(env, obj[..i]) == Ok(result)
    {
      assert obj[..i + 1][..i] == obj[..i];
      var v := Subst(env, obj[i].1);
      if v.Err? {
        assert SubstitutedRecord(env, obj[..i + 1]) == Err(v.error);
        SubstitutedRecordErrSticks(env, obj, i + 1);
        return Err(v.error);
      }
      // Object.entries yields each key once, so the assignment appends.
      result := result + [(obj[i].0, v.value)];
    }
    assert obj[..|obj|] == obj;
    return Ok(result);
  }

  /** Once a prefix of the record fails, the whole record fails with the same error. */
  lemma {:induction false} SubstitutedRecordErrSticks(env: Env, rec: seq<(string, string)>, k: nat)
    requires k <= |rec| && SubstitutedRecord(env, rec[..k]).Err?
    ensures SubstitutedRecord(env, rec) == SubstitutedRecord(env, rec[..k])
    decreases |rec| - k
  {
    if k < |rec| {
      assert rec[..k + 1][..k] == rec[..k];
      SubstitutedRecordErrSticks(env, rec, k + 1);
    } else {
      assert rec[..k] == rec;
    }
  }
}
