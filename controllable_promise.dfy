/** A promise together with its settle functions and a `status` field
    (src/utils/controllablePromise.ts). The promise settles once, on the first call to
    `resolve` or `reject`; the `status` field is overwritten by every call. The
    constructor's `Illegal state` branch is not modelled: the executor of `new Promise`
    runs synchronously, so both settle functions are always set when it is checked. */
module ControllablePromise {

  datatype Status = Pending | Resolved | Rejected

  /** What awaiting the promise yields. */
  datatype Settlement<T> = Unsettled | Fulfilled(value: T) | Failed(reason: string)

  datatype Call<T> = ResolveCall(value: T) | RejectCall(reason: string)

  datatype CellState<T> = CellState(status: Status, outcome: Settlement<T>)

  /** The effect of one settle call on the cell. */
  function Step<T>(s: CellState<T>, c: Call<T>): (r: CellState<T>)
    ensures r.status == if c.ResolveCall? then Resolved else Rejected
    ensures s.outcome != Unsettled ==> r.outcome == s.outcome
  {
    var status := if c.ResolveCall? then Resolved else Rejected;
    if s.outcome != Unsettled then CellState(status, s.outcome)
    else CellState(status, if c.ResolveCall? then Fulfilled(c.value) else Failed(c.reason))
  }

  function Replay<T>(calls: seq<Call<T>>): CellState<T>
    decreases |calls|
  {
    if calls == [] then CellState(Pending, Unsettled)
    else Step(Replay(calls[..|calls| - 1]), calls[|calls| - 1])
  }

  function SettlementOf<T>(c: Call<T>): Settlement<T> {
    match c
    case ResolveCall(v) => Fulfilled(v)
    case RejectCall(e) => Failed(e)
  }

  /** After any sequence of calls, the outcome is decided by the first call and the
      status shows the last one; the status is `pending` exactly when nothing settled. */
  lemma {:induction false} FirstCallDecidesLastCallShows<T>(calls: seq<Call<T>>)
    ensures Replay(calls).outcome == if calls == [] then Unsettled else SettlementOf(calls[0])
    ensures Replay(calls).status ==
      if calls == [] then Pending else if calls[|calls| - 1].ResolveCall? then Resolved else Rejected
    ensures (Replay(calls).status == Pending) <==> Replay(calls).outcome == Unsettled
    decreases |calls|
  {
    if calls != [] {
      var init := calls[..|calls| - 1];
      FirstCallDecidesLastCallShows(init);
      if init != [] {
        assert init[0] == calls[0];
      }
    }
  }

  /** The cell of the source: `status` is a plain field next to the promise. */
  class Cell<T> {
    var status: Status
    var outcome: Settlement<T>

    /** The status is `pending` exactly while the promise is unsettled. */
    predicate Valid()
      reads this
    {
      (status == Pending) <==> outcome == Unsettled
    }

    constructor()
      ensures status == Pending && outcome == Unsettled && Valid()
    {
      status := Pending;
      outcome := Unsettled;
    }

    method Resolve(v: T)
      requires Valid()
      modifies this
      ensures Valid()
      ensures CellState(status, outcome) == Step(CellState(old(status), old(outcome)), ResolveCall(v))
    {
      status := Resolved;
      if outcome == Unsettled {
        outcome := Fulfilled(v);
      }
    }

    method Reject(reason: string)
      requires Valid()
      modifies this
      ensures Valid()
      ensures CellState(status, outcome) == Step(CellState(old(status), old(outcome)), RejectCall(reason))
    {
      status := Rejected;
      if outcome == Unsettled {
        outcome := Failed(reason);
      }
    }
  }

  /** Rejecting after resolving shows `rejected` while awaiting still yields the first
      value. */
  method ResolveThenReject<T>(v: T, reason: string) returns (c: Cell<T>)
    ensures c.status == Rejected && c.outcome == Fulfilled(v)
  {
    c := new Cell<T>();
    c.Resolve(v);
    c.Reject(reason);
  }
}
