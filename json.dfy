/** JSON values as the source sees them after `JSON.parse`, and the handful of object
    operations whose JavaScript semantics the model relies on: property lookup,
    assignment (`o[k] = v`), object spread (`{...a, ...b}`), rest destructuring
    (`const {k, ...rest} = o`) and `Object.entries` of arrays and objects.
    An object is its list of own properties in insertion order. */
module Json {
  import opened Wrappers

  /** Numbers are integers here; fractional and non-finite numbers are not modelled. */
  datatype Json =
    | JNull
    | JBool(b: bool)
    | JNum(n: int)
    | JStr(s: string)
    | JArr(items: seq<Json>)
    | JObj(fields: seq<(string, Json)>)

  type Fields = seq<(string, Json)>

  /** The property names of an object, in insertion order. */
  function Keys<V>(fields: seq<(string, V)>): (ks: seq<string>)
    ensures |ks| == |fields|
    ensures forall i :: 0 <= i < |fields| ==> ks[i] == fields[i].0
  {
    if fields == [] then [] else [fields[0].0] + Keys(fields[1..])
  }

  /** `k in o` for a property the object owns. */
  predicate HasKey<V>(fields: seq<(string, V)>, k: string) {
    fields != [] && (fields[0].0 == k || HasKey(fields[1..], k))
  }

  /** No property name occurs twice (true of every JavaScript object). */
  predicate DistinctKeys<V>(fields: seq<(string, V)>) {
    fields == [] || (!HasKey(fields[1..], fields[0].0) && DistinctKeys(fields[1..]))
  }

  /** `o[k]`: the value of the first property named `k`, or None when `o` has no such
      property. */
  function Lookup<V>(fields: seq<(string, V)>, k: string): (r: Option<V>)
    ensures r.Some? <==> HasKey(fields, k)
  {
    if fields == [] then None
    else if fields[0].0 == k then Some(fields[0].1)
    else Lookup(fields[1..], k)
  }

  /** `o[k] = v`: an existing property keeps its position and takes the new value;
      a new one is appended. */
  function Set<V>(fields: seq<(string, V)>, k: string, v: V): (r: seq<(string, V)>)
    ensures Lookup(r, k) == Some(v)
    ensures forall k' :: k' != k ==> Lookup(r, k') == Lookup(fields, k')
    ensures forall k' :: HasKey(r, k') <==> HasKey(fields, k') || k' == k
    ensures DistinctKeys(fields) ==> DistinctKeys(r)
  {
    if fields == [] then [(k, v)]
    else if fields[0].0 == k then
      var r := [(k, v)] + fields[1..];
      assert r[1..] == fields[1..];
      r
    else
      var rest := Set(fields[1..], k, v);
      var r := [fields[0]] + rest;
      assert r[0] == fields[0] && r[1..] == rest;
      assert Lookup(rest, fields[0].0) == Lookup(fields[1..], fields[0].0);
      r
  }

  /** Assignment keeps the order of the existing property names and puts a new one
      last. */
  lemma {:induction false} SetKeepsOrder<V>(fields: seq<(string, V)>, k: string, v: V)
    ensures Keys(Set(fields, k, v)) == if HasKey(fields, k) then Keys(fields) else Keys(fields) + [k]
  {
    if fields == [] {
      assert Keys(Set(fields, k, v)) == [k];
    } else {
      var r := Set(fields, k, v);
      assert r[0].0 == fields[0].0;
      assert Keys(r) == [r[0].0] + Keys(r[1..]);
      assert Keys(fields) == [fields[0].0] + Keys(fields[1..]);
      if fields[0].0 == k {
        assert r[1..] == fields[1..];
      } else {
        assert r[1..] == Set(fields[1..], k, v);
        SetKeepsOrder(fields[1..], k, v);
      }
    }
  }

  /** A name absent from the first part is looked up in the second. */
  lemma {:induction false} LookupPast<V>(a: seq<(string, V)>, b: seq<(string, V)>, k: string)
    requires !HasKey(a, k)
    ensures Lookup(a + b, k) == Lookup(b, k)
  {
    if a != [] {
      assert (a + b)[0] == a[0] && (a + b)[1..] == a[1..] + b;
      LookupPast(a[1..], b, k);
    } else {
      assert a + b == b;
    }
  }

  /** A name of the second part is a name of the whole. */
  lemma {:induction false} KeyInTail<V>(a: seq<(string, V)>, b: seq<(string, V)>, k: string)
    requires HasKey(b, k)
    ensures HasKey(a + b, k)
  {
    if a != [] {
      assert (a + b)[0] == a[0] && (a + b)[1..] == a[1..] + b;
      KeyInTail(a[1..], b, k);
    } else {
      assert a + b == b;
    }
  }

  /** In an object with distinct names, a name of the second part is not in the first. */
  lemma {:induction false} KeyNotBefore<V>(a: seq<(string, V)>, b: seq<(string, V)>, k: string)
    requires DistinctKeys(a + b) && HasKey(b, k)
    ensures !HasKey(a, k)
  {
    if a != [] {
      assert (a + b)[0] == a[0] && (a + b)[1..] == a[1..] + b;
      if a[0].0 == k {
        LookupPast([], b, k);
        KeyInTail(a[1..], b, k);
      }
      KeyNotBefore(a[1..], b, k);
    }
  }

  /** `map.set` of a new key appends it. */
  lemma {:induction false} SetAbsentAppends<V>(gs: seq<(string, V)>, k: string, v: V)
    requires !HasKey(gs, k)
    ensures Set(gs, k, v) == gs + [(k, v)]
  {
    if gs != [] {
      SetAbsentAppends(gs[1..], k, v);
      assert gs + [(k, v)] == [gs[0]] + (gs[1..] + [(k, v)]);
    }
  }

  /** `{...base, ...extra}`: the properties of `extra` are assigned onto a copy of
      `base` in order, so `extra` wins on every shared name while `base`'s names keep
      their positions. */
  function Spread<V>(base: seq<(string, V)>, extra: seq<(string, V)>): (r: seq<(string, V)>)
    ensures DistinctKeys(extra) ==>
      forall k :: Lookup(r, k) == if HasKey(extra, k) then Lookup(extra, k) else Lookup(base, k)
    ensures forall k :: HasKey(r, k) <==> HasKey(base, k) || HasKey(extra, k)
    ensures DistinctKeys(base) ==> DistinctKeys(r)
    decreases |extra|
  {
    if extra == [] then base
    else Spread(Set(base, extra[0].0, extra[0].1), extra[1..])
  }

  /** `const {k: _, ...rest} = o`: every property except `k`, in order. */
  function Remove<V>(fields: seq<(string, V)>, k: string): (r: seq<(string, V)>)
    ensures Lookup(r, k) == None
    ensures forall k' :: k' != k ==> Lookup(r, k') == Lookup(fields, k')
    ensures DistinctKeys(fields) ==> DistinctKeys(r)
  {
    if fields == [] then []
    else if fields[0].0 == k then Remove(fields[1..], k)
    else
      var rest := Remove(fields[1..], k);
      var r := [fields[0]] + rest;
      assert r[0] == fields[0] && r[1..] == rest;
      assert Lookup(rest, fields[0].0) == Lookup(fields[1..], fields[0].0);
      r
  }

  /** The decimal digits of a natural number, as `String(n)` writes them. */
  function NatToString(n: nat): (s: string)
    ensures |s| >= 1
    ensures (|s| == 1) == (n < 10)
    ensures forall i :: 0 <= i < |s| ==> '0' <= s[i] <= '9'
  {
    if n < 10 then [DigitChar(n)] else NatToString(n / 10) + [DigitChar(n % 10)]
  }

  function DigitChar(d: nat): (c: char)
    requires d < 10
    ensures '0' <= c <= '9'
  {
    (48 + d) as char
  }

  /** Distinct numbers are written differently. */
  lemma {:induction false} NatToStringInjective(a: nat, b: nat)
    requires NatToString(a) == NatToString(b)
    ensures a == b
  {
    if a >= 10 && b >= 10 {
      var sa, sb := NatToString(a), NatToString(b);
      assert sa[|sa| - 1] == DigitChar(a % 10) && sb[|sb| - 1] == DigitChar(b % 10);
      assert sa[..|sa| - 1] == NatToString(a / 10);
      assert sb[..|sb| - 1] == NatToString(b / 10);
      NatToStringInjective(a / 10, b / 10);
    }
  }

  /** The own enumerable properties of an array: its indices written in decimal. */
  function IndexedEntries(items: seq<Json>, start: nat): (r: Fields)
    ensures |r| == |items|
    ensures forall i :: 0 <= i < |items| ==> r[i] == (NatToString(start + i), items[i])
  {
    if items == [] then [] else [(NatToString(start), items[0])] + IndexedEntries(items[1..], start + 1)
  }

  /** `Object.entries(v)` for a value the source has checked to be a non-null object;
      None for the other kinds of value. */
  function Entries(v: Json): (r: Option<Fields>)
    ensures r.Some? <==> v.JObj? || v.JArr?
    ensures v.JObj? ==> r == Some(v.fields)
  {
    match v
    case JObj(fields) => Some(fields)
    case JArr(items) => Some(IndexedEntries(items, 0))
    case _ => None
  }

  /** `items.every((x) => typeof x === "string")` */
  predicate AllStrings(items: seq<Json>) {
    forall i :: 0 <= i < |items| ==> items[i].JStr?
  }

  /** `Object.values(o).every((x) => typeof x === "string")` */
  predicate AllStringValues(fields: Fields) {
    forall i :: 0 <= i < |fields| ==> fields[i].1.JStr?
  }

  function Strings(items: seq<Json>): (r: seq<string>)
    requires AllStrings(items)
    ensures |r| == |items| && forall i :: 0 <= i < |items| ==> items[i] == JStr(r[i])
  {
    if items == [] then [] else [items[0].s] + Strings(items[1..])
  }

  function StringArray(strs: seq<string>): (r: Json)
    ensures r.JArr? && AllStrings(r.items) && Strings(r.items) == strs
  {
    JArr(seq(|strs|, i requires 0 <= i < |strs| => JStr(strs[i])))
  }

  function StringRecord(fields: Fields): (r: seq<(string, string)>)
    requires AllStringValues(fields)
    ensures |r| == |fields|
    ensures forall i :: 0 <= i < |fields| ==> fields[i] == (r[i].0, JStr(r[i].1))
  {
    if fields == [] then [] else [(fields[0].0, fields[0].1.s)] + StringRecord(fields[1..])
  }

  function RecordObject(rec: seq<(string, string)>): (r: Json)
    ensures r.JObj? && |r.fields| == |rec|
    ensures forall i :: 0 <= i < |rec| ==> r.fields[i] == (rec[i].0, JStr(rec[i].1))
  {
    JObj(seq(|rec|, i requires 0 <= i < |rec| => (rec[i].0, JStr(rec[i].1))))
  }
}
