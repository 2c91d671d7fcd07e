/** Callbacks, their order, and the ordered queue that every registry keeps. */
module Callbacks {
  import opened Timestamps

  datatype Callback = Callback(when: Timestamp, id: nat)

  /** Earlier timestamp first; equal timestamps in the order of the ids. */
  predicate Before(a: Callback, b: Callback) {
    Less(a.when, b.when) || (!Greater(a.when, b.when) && a.id < b.id)
  }

  lemma BeforeIsAStrictTotalOrder(a: Callback, b: Callback, c: Callback)
    ensures !Before(a, a)
    ensures Before(a, b) && Before(b, c) ==> Before(a, c)
    ensures !Before(a, b) && !Before(b, a) <==> a == b
  {
  }

  predicate Sorted(q: seq<Callback>) {
    forall i, j :: 0 <= i < j < |q| ==> Before(q[i], q[j])
  }

  /** Insertion into the ordered set: an element equivalent to one already there is dropped. */
  function Insert(q: seq<Callback>, cb: Callback): seq<Callback> {
    if q == [] || Before(cb, q[0]) then [cb] + q
    else if Before(q[0], cb) then [q[0]] + Insert(q[1..], cb)
    else q
  }

  /** Removal of the first callback with this id, if there is one. */
  function Erase(q: seq<Callback>, id: nat): seq<Callback> {
    if q == [] then []
    else if q[0].id == id then q[1..]
    else [q[0]] + Erase(q[1..], id)
  }

  predicate DueAt(cb: Callback, now: Timestamp) {
    !Greater(cb.when, now)
  }

  /** The head of the queue is due. */
  predicate Due(q: seq<Callback>, now: Timestamp) {
    q != [] && DueAt(q[0], now)
  }

  predicate HasId(q: seq<Callback>, id: nat) {
    exists i :: 0 <= i < |q| && q[i].id == id
  }

  lemma {:induction false} InsertKeepsOrder(q: seq<Callback>, cb: Callback)
    requires Sorted(q)
    ensures Sorted(Insert(q, cb))
    ensures forall x :: x in Insert(q, cb) <==> x in q || x == cb
    ensures |Insert(q, cb)| == |q| + (if cb in q then 0 else 1)
  {
    if q == [] || Before(cb, q[0]) {
      assert cb !in q;
    } else if Before(q[0], cb) {
      InsertKeepsOrder(q[1..], cb);
      var rest := Insert(q[1..], cb);
      assert q == [q[0]] + q[1..];
      assert forall x :: x in q[1..] ==> Before(q[0], x);
      assert forall j :: 0 <= j < |rest| ==> rest[j] in rest;
    }
  }

  lemma HasIdFurther(q: seq<Callback>, id: nat)
    requires q != []
    ensures HasId(q, id) <==> q[0].id == id || HasId(q[1..], id)
  {
    if i :| 0 <= i < |q| && q[i].id == id && i > 0 {
      assert q[1..][i - 1].id == id;
    }
    if i :| 0 <= i < |q[1..]| && q[1..][i].id == id {
      assert q[i + 1].id == id;
    }
  }

  lemma NoneFurther(q: seq<Callback>)
    requires q != []
    requires forall i, j :: 0 <= i < |q| && 0 <= j < |q| && q[i].id == q[j].id ==> i == j
    ensures !HasId(q[1..], q[0].id) && forall x :: x in q[1..] ==> x.id != q[0].id
  {
    forall i | 0 <= i < |q[1..]| ensures q[1..][i].id != q[0].id {
      assert q[1..][i] == q[i + 1];
    }
  }

  lemma SortedFurther(head: Callback, rest: seq<Callback>)
    requires Sorted(rest) && forall x :: x in rest ==> Before(head, x)
    ensures Sorted([head] + rest)
  {
    assert forall j :: 0 <= j < |rest| ==> rest[j] in rest;
  }

  lemma {:induction false} EraseKeepsOrder(q: seq<Callback>, id: nat)
    requires Sorted(q)
    requires forall i, j :: 0 <= i < |q| && 0 <= j < |q| && q[i].id == q[j].id ==> i == j
    ensures Sorted(Erase(q, id))
    ensures forall x :: x in Erase(q, id) <==> x in q && x.id != id
    ensures |Erase(q, id)| == |q| - (if HasId(q, id) then 1 else 0)
  {
    hide Before;
    if q != [] {
      var head, rest := q[0], q[1..];
      assert q == [head] + rest;
      HasIdFurther(q, id);
      if head.id == id {
        NoneFurther(q);
      } else {
        EraseKeepsOrder(rest, id);
        assert forall x :: x in rest ==> Before(head, x);
        SortedFurther(head, Erase(rest, id));
      }
    }
  }

  /** In an ordered queue nothing due hides behind a head that is not. */
  lemma NothingDueBehindTheHead(q: seq<Callback>, now: Timestamp, cb: Callback)
    requires Sorted(q) && cb in q && DueAt(cb, now)
    ensures Due(q, now)
  {
    var i :| 0 <= i < |q| && q[i] == cb;
    assert i > 0 ==> Before(q[0], q[i]);
  }

  /** First in, first out: of two calls on one loop, the earlier with no longer a delay leaves first. */
  lemma EarlierCallLeavesFirst(q: seq<Callback>, t1: Timestamp, d1: real, id1: nat, t2: Timestamp, d2: real, id2: nat)
    requires Sorted(q)
    requires t1.Nanos() <= t2.Nanos() && d1 <= d2 && id1 < id2
    requires Callback(Later(t1, d1), id1) in q
    ensures q[0] != Callback(Later(t2, d2), id2)
  {
    var a, b := Callback(Later(t1, d1), id1), Callback(Later(t2, d2), id2);
    LaterIsMonotone(t1, t2, d1, d2);
    LessIsTheOrderOfInstants(a.when, b.when);
    assert Before(a, b);
    var i :| 0 <= i < |q| && q[i] == a;
  }

  /** A call made with no shorter a delay than all before it goes to the back of the queue. */
  lemma {:induction false} LatestGoesLast(q: seq<Callback>, cb: Callback)
    requires forall x :: x in q ==> Before(x, cb)
    ensures Insert(q, cb) == q + [cb]
  {
    if q != [] {
      assert q[0] in q;
      forall x | x in q[1..] ensures Before(x, cb) {
        assert x in q;
      }
      LatestGoesLast(q[1..], cb);
      assert q == [q[0]] + q[1..];
    }
  }

  /** Calls without delay queue up first in, first out, and all of them are due. */
  lemma ZeroDelaysQueueUp(q: seq<Callback>, clock: Timestamp, id: nat)
    requires forall x :: x in q ==> x.when.Nanos() <= clock.Nanos() && x.id < id
    ensures Insert(q, Callback(Later(clock, 0.0), id)) == q + [Callback(clock, id)]
    ensures Due(q + [Callback(clock, id)], clock)
  {
    NoDelayIsNow(clock);
    hide Later;
    forall x | x in q + [Callback(clock, id)] ensures DueAt(x, clock) {
      LessIsTheOrderOfInstants(x.when, clock);
    }
    forall x | x in q ensures Before(x, Callback(clock, id)) {
      LessIsTheOrderOfInstants(x.when, clock);
    }
    LatestGoesLast(q, Callback(clock, id));
  }

  /** A callback is never due before its call time plus its delay, less one nanosecond. */
  lemma NeverEarly(t: Timestamp, delay: real, id: nat, now: Timestamp)
    requires DueAt(Callback(Later(t, delay), id), now)
    ensures now.Nanos() as real > Exact(t, delay) - 1.0
  {
    LaterIsWithinANanosecond(t, delay);
    LessIsTheOrderOfInstants(Later(t, delay), now);
  }
}
