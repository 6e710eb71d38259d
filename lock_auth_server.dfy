/** The process-wide FIFO lock around the browser authorization step
    (src/auth/lockAuthServer.ts). Every acquire pushes a fresh ticket (a controllable
    promise) onto the one module-level queue and waits on the ticket that was last at
    that moment; `release` resolves its own ticket and splices it out of the queue.
    Tickets are numbered; a ticket's promise is resolved once it is in `released`.
    Waiting is not executed: `Ready` says when an acquirer's `await` may return. */
module LockAuthServer {
  import opened Wrappers

  /** `queue.splice(queue.indexOf(t), 1)` when `t` is queued, else the queue itself. */
  function Without(q: seq<nat>, t: nat): (r: seq<nat>)
    ensures t !in q ==> r == q
    ensures t in q ==> |r| == |q| - 1
  {
    if q == [] then []
    else if q[0] == t then q[1..]
    else [q[0]] + Without(q[1..], t)
  }

  /** `queue.indexOf(t)` for a queued ticket. */
  function IndexOf(q: seq<nat>, t: nat): (i: nat)
    requires t in q
    ensures i < |q| && q[i] == t && t !in q[..i]
  {
    if q[0] == t then 0
    else
      var i := IndexOf(q[1..], t) + 1;
      assert q[..i] == [q[0]] + q[1..][..i - 1];
      i
  }

  /** Removing a queued ticket splices out its first occurrence: the tickets before it
      and after it stay, in order. */
  lemma {:induction false} WithoutSplices(q: seq<nat>, t: nat)
    requires t in q
    ensures Without(q, t) == q[..IndexOf(q, t)] + q[IndexOf(q, t) + 1..]
  {
    if q[0] == t {
      assert q[..0] + q[1..] == q[1..];
    } else {
      WithoutSplices(q[1..], t);
      SpliceBehindHead(q, t, IndexOf(q[1..], t));
    }
  }

  lemma SpliceBehindHead(q: seq<nat>, t: nat, i: nat)
    requires q != [] && q[0] != t && i < |q| - 1
    requires Without(q[1..], t) == q[1..][..i] + q[1..][i + 1..]
    ensures Without(q, t) == q[..i + 1] + q[i + 2..]
  {
    var before, after := q[1..][..i], q[1..][i + 1..];
    assert Without(q, t) == [q[0]] + (before + after);
    assert q[..i + 1] == [q[0]] + before;
    assert q[i + 2..] == after;
    assert [q[0]] + (before + after) == ([q[0]] + before) + after;
  }

  class Lock {
    /** The module-level `queue`. */
    var queue: seq<nat>
    /** For every ticket handed out, the ticket that was last when it was pushed. */
    var waitsOn: map<nat, Option<nat>>
    /** Tickets whose promise has been resolved. */
    var released: set<nat>
    var nextTicket: nat

    /** The acquirer holding `t` may proceed: it waited on nothing, or on a ticket that
        has been released. */
    predicate Ready(t: nat)
      reads this
    {
      t in waitsOn && (waitsOn[t].None? || waitsOn[t].value in released)
    }

    /** Queued tickets are distinct, in the order they were handed out, and form a
        chain: the head is ready and every other ticket waits on the one before it,
        which is still queued. */
    predicate Valid()
      reads this
    {
      (forall i :: 0 < i < |queue| ==> queue[i - 1] < queue[i]) &&
      (forall i :: 0 <= i < |queue| ==> queue[i] in waitsOn && queue[i] !in released && queue[i] < nextTicket) &&
      (forall t :: t in waitsOn ==> t < nextTicket) &&
      (forall t :: t in released ==> t in waitsOn) &&
      (queue != [] ==> Ready(queue[0])) &&
      (forall i :: 0 < i < |queue| ==> waitsOn[queue[i]] == Some(queue[i - 1]))
    }

    constructor()
      ensures queue == [] && waitsOn == map[] && released == {} && nextTicket == 0 && Valid()
    {
      queue := [];
      waitsOn := map[];
      released := {};
      nextTicket := 0;
    }

    /** Exactly one queued ticket may proceed at a time: the head. */
    lemma OnlyHeadReady()
      requires Valid()
      ensures forall i :: 0 <= i < |queue| ==> (Ready(queue[i]) <==> i == 0)
    {
      forall i | 0 < i < |queue|
        ensures !Ready(queue[i])
      {
        assert waitsOn[queue[i]] == Some(queue[i - 1]) && queue[i - 1] !in released;
      }
    }

    /** The synchronous part of `lockAuthServer`: push a fresh ticket and remember the
        previous last ticket, the one to await. An acquire on an empty queue does not
        wait. */
    method Acquire() returns (t: nat)
      requires Valid()
      modifies this
      ensures Valid()
      ensures t == old(nextTicket) && nextTicket == old(nextTicket) + 1
      ensures queue == old(queue) + [t]
      ensures waitsOn == old(waitsOn)[t := if old(queue) == [] then None else Some(old(queue)[|old(queue)| - 1])]
      ensures released == old(released)
      ensures old(queue) == [] ==> Ready(t)
      ensures old(queue) != [] ==> !Ready(t)
    {
      t := nextTicket;
      var q: seq<nat> := queue;
      var last: Option<nat> := if q == [] then None else Some(q[|q| - 1]);
      assert t !in waitsOn && t !in released;
      queue := q + [t];
      waitsOn := waitsOn[t := last];
      nextTicket := nextTicket + 1;
      assert forall i :: 0 <= i < |q| ==> queue[i] == q[i];
      if q != [] {
        assert waitsOn[q[0]] == old(waitsOn)[q[0]];
        assert q[|q| - 1] !in released;
      }
    }

    /** `release`: resolve the ticket, then remove it if it is still queued; the other
        tickets keep their order. Only an acquirer whose `await` returned holds
        `release`, hence the precondition. */
    method Release(t: nat)
      requires Valid() && Ready(t)
      modifies this
      ensures Valid()
      ensures released == old(released) + {t}
      ensures queue == Without(old(queue), t)
      ensures waitsOn == old(waitsOn) && nextTicket == old(nextTicket)
    {
      OnlyHeadReady();
      var q := queue;
      released := released + {t};
      queue := Without(q, t);
      if q != [] && q[0] == t {
        assert queue == q[1..];
        if |q| > 1 {
          assert waitsOn[q[1]] == Some(t);
        }
      } else {
        assert t !in q;
        assert queue == q;
      }
    }

    /** Some waiting acquirer whose wait has ended works and releases: whichever ticket
        the lock lets proceed, it is the head. */
    method ReleaseReady() returns (t: nat)
      requires Valid() && queue != []
      modifies this
      ensures Valid()
      ensures t == old(queue)[0] && queue == old(queue)[1..]
      ensures released == old(released) + {t} && waitsOn == old(waitsOn) && nextTicket == old(nextTicket)
    {
      assert queue[0] in queue && Ready(queue[0]);
      t :| t in queue && Ready(t);
      OnlyHeadReady();
      ghost var k :| 0 <= k < |queue| && queue[k] == t;
      assert k == 0;
      Release(t);
    }
  }

  /** The tickets 0, 1, ..., n - 1: the callers in the order they acquired. */
  function Upto(n: nat): (r: seq<nat>)
    ensures |r| == n && forall i :: 0 <= i < n ==> r[i] == i
  {
    seq(n, i requires 0 <= i => i)
  }

  /** `n` callers acquire one after the other: the queue holds their tickets in call
      order and only the first may proceed. */
  method AcquireInTurn(n: nat) returns (lock: Lock)
    ensures fresh(lock) && lock.Valid()
    ensures lock.queue == Upto(n) && lock.released == {}
  {
    lock := new Lock();
    for k := 0 to n
      invariant lock.Valid() && lock.queue == Upto(k) && lock.nextTicket == k && lock.released == {}
    {
      var t := lock.Acquire();
      assert Upto(k) + [t] == Upto(k + 1);
    }
  }

  /** The tickets lo, lo + 1, ..., hi - 1. */
  function Between(lo: nat, hi: nat): (r: seq<nat>)
    requires lo <= hi
    ensures |r| == hi - lo && forall i :: 0 <= i < hi - lo ==> r[i] == lo + i
  {
    seq(hi - lo, i requires 0 <= i => lo + i)
  }

  /** `n` callers acquire one after the other, then, while any is waiting, whichever
      queued caller's wait has ended works and releases: they are served strictly in the
      order they called, each one only while it is at the head of the queue. */
  method ServeInOrder(n: nat) returns (served: seq<nat>)
    ensures served == Upto(n)
  {
    var lock := AcquireInTurn(n);
    served := [];
    assert Upto(n) == Between(0, n);
    while lock.queue != []
      invariant lock.Valid()
      invariant |served| <= n && served == Upto(|served|) && lock.queue == Between(|served|, n)
      decreases |lock.queue|
    {
      var t := lock.ReleaseReady();
      assert Upto(|served|) + [t] == Upto(|served| + 1);
      served := served + [t];
    }
  }
}
