/** `connectWithAuthentication` (src/proxy/connectWithAuthentication.ts): connect a client
    over a fresh transport, and when a remote server's connect throws the `Error`
    `Unauthorized`, build a new transport and connect again. The client's connect is an
    oracle: one run of the function sees the outcomes of its attempts in order. A run
    that uses up the outcomes before it stops is reported as unfinished. */
module ConnectWithAuthentication {
  /** What a `catch` can receive: an `Error` with its message, or any other value. */
  datatype Thrown = ErrorObject(message: string) | NonError

  /** The outcome of one `client.connect(transport)`. */
  datatype Attempt = Connected | Threw(thrown: Thrown)

  /** How a run ends, with the number of connect attempts (and so of transports built).
      A successful run returns nothing. */
  datatype Ending =
    | Returned(attempts: nat)
    | Raised(thrown: Thrown, attempts: nat)
    | Unfinished(attempts: nat)

  const UnauthorizedThrow := Threw(ErrorObject("Unauthorized"))

  /** The case that is retried: an `Error` whose message is exactly "Unauthorized". */
  predicate Retried(a: Attempt) {
    a == UnauthorizedThrow
  }

  /** One run over the outcomes of its attempts; `stdio` says the entry is a stdio one. */
  function Connect(stdio: bool, outcomes: seq<Attempt>): (e: Ending)
    ensures e.attempts <= |outcomes|
    ensures e.Unfinished? ==> e.attempts == |outcomes|
    ensures !stdio ==> (e.Unfinished? <==> e.attempts == |outcomes| && (|outcomes| == 0 || Retried(outcomes[|outcomes| - 1])))
    ensures e.Returned? ==> 1 <= e.attempts && outcomes[e.attempts - 1] == Connected
    ensures e.Raised? ==> 1 <= e.attempts && outcomes[e.attempts - 1] == Threw(e.thrown)
    ensures e.Raised? && !stdio ==> !Retried(outcomes[e.attempts - 1])
    ensures stdio && |outcomes| > 0 ==> e.attempts == 1
  {
    if |outcomes| == 0 then Unfinished(0)
    else match outcomes[0]
      case Connected => Returned(1)
      case Threw(t) =>
        if stdio || !Retried(outcomes[0]) then Raised(t, 1)
        else
          var rest := Connect(stdio, outcomes[1..]);
          rest.(attempts := rest.attempts + 1)
  }

  /** The index of the first outcome that is not retried, or the length when there is
      none. */
  function FirstStop(outcomes: seq<Attempt>): (i: nat)
    ensures i <= |outcomes|
    ensures i < |outcomes| ==> !Retried(outcomes[i])
  {
    if |outcomes| == 0 || !Retried(outcomes[0]) then 0 else 1 + FirstStop(outcomes[1..])
  }

  /** Only outcomes that are retried come before `FirstStop`. */
  lemma {:induction false} RetriedBeforeFirstStop(outcomes: seq<Attempt>, j: nat)
    requires j < FirstStop(outcomes)
    ensures Retried(outcomes[j])
  {
    if j > 0 {
      RetriedBeforeFirstStop(outcomes[1..], j - 1);
    }
  }

  /** A remote entry's run ends at the first outcome other than `Unauthorized`: success
      returns, anything else propagates unchanged; retries are unbounded. */
  lemma {:induction false} RemoteRunStopsAtFirstStop(outcomes: seq<Attempt>)
    ensures var i := FirstStop(outcomes);
      Connect(false, outcomes) ==
        if i == |outcomes| then Unfinished(i)
        else if outcomes[i] == Connected then Returned(i + 1)
        else Raised(outcomes[i].thrown, i + 1)
  {
    if |outcomes| > 0 && Retried(outcomes[0]) {
      RemoteRunStopsAtFirstStop(outcomes[1..]);
    }
  }

  function Unauthorized(n: nat): (r: seq<Attempt>)
    ensures |r| == n && forall i :: 0 <= i < n ==> r[i] == UnauthorizedThrow
  {
    if n == 0 then [] else [UnauthorizedThrow] + Unauthorized(n - 1)
  }

  /** After `n` consecutive `Unauthorized` failures a success makes `n + 1` attempts, and
      any other throw propagates unchanged after as many. */
  lemma {:induction false} RetryThenStop(n: nat, last: Attempt, rest: seq<Attempt>)
    requires !Retried(last)
    ensures Connect(false, Unauthorized(n) + [last] + rest) ==
      if last == Connected then Returned(n + 1) else Raised(last.thrown, n + 1)
  {
    var os := Unauthorized(n) + [last] + rest;
    if n > 0 {
      assert os[1..] == Unauthorized(n - 1) + [last] + rest;
      RetryThenStop(n - 1, last, rest);
    }
  }

  /** A stdio entry makes exactly one attempt, and whatever it throws (also
      `Unauthorized`) propagates. */
  lemma StdioSingleAttempt(first: Attempt, rest: seq<Attempt>)
    ensures Connect(true, [first] + rest) == if first == Connected then Returned(1) else Raised(first.thrown, 1)
  {
  }
}
