/** What the two group orchestrators (src/proxy/ModularMcpClient.ts and
    src/client-manager.ts) share: thrown values, the `close` calls of a disconnect, and
    the `groups` Map. A JavaScript `Map` keeps its keys in insertion order, `set` on a
    present key keeps its position, and `delete` removes it, exactly as the object
    operations `Json.Set` and `Json.Remove` do; so a `Map<string, V>` is a
    `seq<(string, V)>` with distinct keys. The SDK's `close` calls are oracles: `outcome`
    says how each one ends. */
module Groups {
  import opened Wrappers
  import opened Json

  /** An `Error`: its `name`, `message` and, when the runtime recorded one, `stack`. */
  datatype ErrorValue = ErrorValue(name: string, message: string, stack: Option<string>)

  /** A thrown value: an `Error`, or any other value, kept as what `String(value)` gives. */
  datatype Cause = ErrorCause(error: ErrorValue) | OtherCause(text: string)

  /** An `Error` the modelled code raises itself. Nothing reads the stack of one of
      these, so it is left empty. */
  function Raise(message: string): (c: Cause)
    ensures c.ErrorCause? && c.error.name == "Error" && c.error.message == message
  {
    ErrorCause(ErrorValue("Error", message, None))
  }

  /** `String(error)` of an `Error` (ECMAScript `Error.prototype.toString`): name and
      message joined by ": ", either alone when the other is empty. */
  function ErrorString(e: ErrorValue): (s: string)
    ensures e.name == "" ==> s == e.message
    ensures e.name != "" && e.message == "" ==> s == e.name
    ensures e.name != "" && e.message != "" ==> s == e.name + ": " + e.message
  {
    if e.name == "" then e.message
    else if e.message == "" then e.name
    else e.name + ": " + e.message
  }

  /** `error instanceof Error ? error.message : String(error)`. */
  function MessageOf(c: Cause): (m: string)
    ensures c.ErrorCause? ==> m == c.error.message
    ensures c.OtherCause? ==> m == c.text
  {
    match c
    case ErrorCause(e) => e.message
    case OtherCause(text) => text
  }

  datatype Close = ClientClose(group: string) | TransportClose(group: string)

  /** `await group.client.close(); await group.transport.close();`: the calls made, and
      what was raised. The transport is closed only after the client closed. */
  function CloseBoth(name: string, outcome: Close -> Outcome<Cause>): (r: (seq<Close>, Option<Cause>))
    ensures |r.0| >= 1 && r.0[0] == ClientClose(name)
    ensures outcome(ClientClose(name)).Fail? ==> r == ([ClientClose(name)], Some(outcome(ClientClose(name)).error))
    ensures outcome(ClientClose(name)).Pass? ==>
      r.0 == [ClientClose(name), TransportClose(name)] &&
      r.1 == if outcome(TransportClose(name)).Fail? then Some(outcome(TransportClose(name)).error) else None
  {
    if outcome(ClientClose(name)).Fail? then ([ClientClose(name)], Some(outcome(ClientClose(name)).error))
    else if outcome(TransportClose(name)).Fail? then
      ([ClientClose(name), TransportClose(name)], Some(outcome(TransportClose(name)).error))
    else ([ClientClose(name), TransportClose(name)], None)
  }

  /** The entries a disconnect of each of `gs` leaves in the map: those whose disconnect
      raised (`effect(..).1` is the raised value), in their order. */
  function Survivors<V>(gs: seq<(string, V)>, effect: (string, V) -> (seq<Close>, Option<Cause>)): (r: seq<(string, V)>)
    ensures |r| <= |gs|
  {
    if gs == [] then []
    else (if effect(gs[0].0, gs[0].1).1.Some? then [gs[0]] else []) + Survivors(gs[1..], effect)
  }

  /** The `close` calls made by a disconnect of each of `gs`, in their order. */
  function CloseCalls<V>(gs: seq<(string, V)>, effect: (string, V) -> (seq<Close>, Option<Cause>)): seq<Close> {
    if gs == [] then [] else effect(gs[0].0, gs[0].1).0 + CloseCalls(gs[1..], effect)
  }

  /** Disconnecting one more entry extends the survivors and the calls at the end. */
  lemma {:induction false} DisconnectOneMore<V>(gs: seq<(string, V)>, g: (string, V), effect: (string, V) -> (seq<Close>, Option<Cause>))
    ensures Survivors(gs + [g], effect) == Survivors(gs, effect) + (if effect(g.0, g.1).1.Some? then [g] else [])
    ensures CloseCalls(gs + [g], effect) == CloseCalls(gs, effect) + effect(g.0, g.1).0
  {
    if gs != [] {
      assert (gs + [g])[1..] == gs[1..] + [g];
      DisconnectOneMore(gs[1..], g, effect);
    }
  }

  /** A survivor is one of the entries. */
  lemma {:induction false} SurvivorKeys<V>(gs: seq<(string, V)>, effect: (string, V) -> (seq<Close>, Option<Cause>), k: string)
    requires HasKey(Survivors(gs, effect), k)
    ensures HasKey(gs, k)
  {
    if gs[0].0 != k {
      var head := if effect(gs[0].0, gs[0].1).1.Some? then [gs[0]] else [];
      LookupPast(head, Survivors(gs[1..], effect), k);
      SurvivorKeys(gs[1..], effect, k);
    }
  }

  /** Deleting a name that first occurs at the head of the second part removes just that
      entry. */
  lemma {:induction false} RemovePast<V>(a: seq<(string, V)>, b: seq<(string, V)>, k: string)
    requires !HasKey(a, k) && b != [] && b[0].0 == k && !HasKey(b[1..], k)
    ensures Remove(a + b, k) == a + b[1..]
  {
    if a == [] {
      assert a + b == b;
      calc {
        Remove(b, k);
        Remove(b[1..], k);
        { RemoveAbsent(b[1..], k); }
        b[1..];
      }
    } else {
      var ab := a + b;
      assert ab[0] == a[0] && ab[1..] == a[1..] + b;
      RemovePast(a[1..], b, k);
      assert Remove(ab, k) == [a[0]] + Remove(ab[1..], k);
      assert a + b[1..] == [a[0]] + (a[1..] + b[1..]);
    }
  }

  /** Deleting an absent name changes nothing. */
  lemma {:induction false} RemoveAbsent<V>(gs: seq<(string, V)>, k: string)
    requires !HasKey(gs, k)
    ensures Remove(gs, k) == gs
  {
    if gs != [] {
      RemoveAbsent(gs[1..], k);
    }
  }

  /** The second part of an object with distinct names has distinct names. */
  lemma {:induction false} DistinctSuffix<V>(a: seq<(string, V)>, b: seq<(string, V)>)
    requires DistinctKeys(a + b)
    ensures DistinctKeys(b)
  {
    if a != [] {
      assert (a + b)[0] == a[0] && (a + b)[1..] == a[1..] + b;
      DistinctSuffix(a[1..], b);
    } else {
      assert a + b == b;
    }
  }

  /** The step of `disconnectAll`: with the entries before index `i` disconnected, the
      next name still finds its own entry, and deleting it leaves the survivors so far
      followed by the rest. */
  lemma NextDisconnect<V>(gs: seq<(string, V)>, i: nat, effect: (string, V) -> (seq<Close>, Option<Cause>))
    requires DistinctKeys(gs) && i < |gs|
    ensures var current := Survivors(gs[..i], effect) + gs[i..];
      var k := gs[i].0;
      Lookup(current, k) == Some(gs[i].1) &&
      Remove(current, k) == Survivors(gs[..i], effect) + gs[i + 1..] &&
      DistinctKeys(current)
  {
    var k := gs[i].0;
    var done := Survivors(gs[..i], effect);
    assert gs == gs[..i] + gs[i..];
    DistinctSuffix(gs[..i], gs[i..]);
    assert HasKey(gs[i..], k);
    KeyNotBefore(gs[..i], gs[i..], k);
    if HasKey(done, k) {
      SurvivorKeys(gs[..i], effect, k);
    }
    LookupPast(done, gs[i..], k);
    assert gs[i..][1..] == gs[i + 1..];
    RemovePast(done, gs[i..], k);
    DistinctSurvivors(gs[..i], gs[i..], effect);
  }

  /** The map after the disconnect of entry `i` (deleted unless the disconnect raised),
      and the calls it made, in terms of the first `i + 1` entries. */
  lemma NextSurvivors<V>(gs: seq<(string, V)>, i: nat, effect: (string, V) -> (seq<Close>, Option<Cause>))
    requires i < |gs|
    ensures effect(gs[i].0, gs[i].1).1.Some? ==>
      Survivors(gs[..i], effect) + gs[i..] == Survivors(gs[..i + 1], effect) + gs[i + 1..]
    ensures effect(gs[i].0, gs[i].1).1.None? ==>
      Survivors(gs[..i], effect) + gs[i + 1..] == Survivors(gs[..i + 1], effect) + gs[i + 1..]
    ensures CloseCalls(gs[..i + 1], effect) == CloseCalls(gs[..i], effect) + effect(gs[i].0, gs[i].1).0
  {
    assert gs[..i + 1] == gs[..i] + [gs[i]];
    DisconnectOneMore(gs[..i], gs[i], effect);
    assert gs[i..] == [gs[i]] + gs[i + 1..];
    var done := Survivors(gs[..i], effect);
    assert done + gs[i..] == (done + [gs[i]]) + gs[i + 1..];
  }

  /** Survivors of a prefix followed by the rest still have distinct keys. */
  lemma {:induction false} DistinctSurvivors<V>(a: seq<(string, V)>, b: seq<(string, V)>, effect: (string, V) -> (seq<Close>, Option<Cause>))
    requires DistinctKeys(a + b)
    ensures DistinctKeys(Survivors(a, effect) + b)
  {
    if a != [] {
      assert (a + b)[0] == a[0] && (a + b)[1..] == a[1..] + b;
      DistinctSurvivors(a[1..], b, effect);
      var rest := Survivors(a[1..], effect) + b;
      if effect(a[0].0, a[0].1).1.Some? {
        assert Survivors(a, effect) + b == [a[0]] + rest;
        assert ([a[0]] + rest)[1..] == rest;
        if HasKey(rest, a[0].0) {
          if HasKey(Survivors(a[1..], effect), a[0].0) {
            SurvivorKeys(a[1..], effect, a[0].0);
            PrefixKey(a[1..], b, a[0].0);
          } else {
            LookupPast(Survivors(a[1..], effect), b, a[0].0);
            KeyInTail(a[1..], b, a[0].0);
          }
        }
      } else {
        assert Survivors(a, effect) + b == rest;
      }
    }
  }

  /** A name of the first part is a name of the whole. */
  lemma {:induction false} PrefixKey<V>(a: seq<(string, V)>, b: seq<(string, V)>, k: string)
    requires HasKey(a, k)
    ensures HasKey(a + b, k)
  {
    if a[0].0 != k {
      assert (a + b)[0] == a[0] && (a + b)[1..] == a[1..] + b;
      PrefixKey(a[1..], b, k);
    }
  }

}
