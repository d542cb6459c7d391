/** Wait queues of blocked threads: the sorted list of kernel/sched.c (deadlines off), as the
    kernel objects use it.  A lower number is a higher priority. */
module WaitQueues {

  type Tid = nat

  /** A pended thread together with what it is waiting for. */
  datatype Waiter<T> = Waiter(tid: Tid, prio: int, want: T)

  ghost predicate Sorted<T>(q: seq<Waiter<T>>) {
    forall i, j | 0 <= i < j < |q| :: q[i].prio <= q[j].prio
  }

  /** z_priq_dumb_add(): in front of the first thread of lower priority. */
  function Enqueue<T>(q: seq<Waiter<T>>, w: Waiter<T>): (r: seq<Waiter<T>>)
    ensures |r| == |q| + 1
  {
    if q == [] then [w]
    else if w.prio < q[0].prio then [w] + q
    else [q[0]] + Enqueue(q[1..], w)
  }

  function Slot<T>(q: seq<Waiter<T>>, prio: int): (i: nat)
    ensures i <= |q|
  {
    if q == [] || prio < q[0].prio then 0 else 1 + Slot(q[1..], prio)
  }

  /** The newcomer goes behind everyone of its own or a higher priority and leaves the others
      in their order. */
  lemma {:induction false} EnqueueAt<T>(q: seq<Waiter<T>>, w: Waiter<T>)
    ensures var i := Slot(q, w.prio);
      && Enqueue(q, w) == q[..i] + [w] + q[i..]
      && (forall k | 0 <= k < i :: q[k].prio <= w.prio)
      && (i < |q| ==> w.prio < q[i].prio)
    decreases q
  {
    if q != [] && q[0].prio <= w.prio {
      EnqueueAt(q[1..], w);
      var j := Slot(q[1..], w.prio);
      var i := j + 1;
      assert q[..i] == [q[0]] + q[1..][..j] && q[i..] == q[1..][j..];
      assert forall k | 1 <= k < i :: q[k] == q[1..][..j][k - 1];
    }
  }

  lemma {:induction false} EnqueueMembers<T(!new)>(q: seq<Waiter<T>>, w: Waiter<T>)
    ensures forall x :: x in Enqueue(q, w) <==> x in q || x == w
  {
    EnqueueAt(q, w);
    var i := Slot(q, w.prio);
    assert q == q[..i] + q[i..];
  }

  lemma {:induction false} EnqueueSorted<T>(q: seq<Waiter<T>>, w: Waiter<T>)
    requires Sorted(q)
    ensures Sorted(Enqueue(q, w))
    ensures forall k | Slot(q, w.prio) <= k < |q| :: w.prio < q[k].prio
  {
    EnqueueAt(q, w);
    hide Enqueue;
  }

  /** Removing a thread, wherever it stands. */
  function Without<T>(q: seq<Waiter<T>>, tid: Tid): (r: seq<Waiter<T>>) {
    if q == [] then []
    else if q[0].tid == tid then Without(q[1..], tid)
    else [q[0]] + Without(q[1..], tid)
  }

  lemma {:induction false} WithoutMembers<T>(q: seq<Waiter<T>>, tid: Tid)
    ensures forall w | w in Without(q, tid) :: w in q && w.tid != tid
    ensures forall w | w in q && w.tid != tid :: w in Without(q, tid)
    decreases q
  {
    if q != [] { WithoutMembers(q[1..], tid); }
  }

  lemma {:induction false} WithoutSorted<T>(q: seq<Waiter<T>>, tid: Tid)
    requires Sorted(q)
    ensures Sorted(Without(q, tid))
    ensures forall w | w in Without(q, tid) :: w in q && w.tid != tid
    ensures forall w | w in q && w.tid != tid :: w in Without(q, tid)
  {
    hide Sorted, Without;
    WithoutInOrder(q, tid);
    WithoutMembers(q, tid);
  }

  lemma {:induction false} WithoutInOrder<T>(q: seq<Waiter<T>>, tid: Tid)
    requires Sorted(q)
    ensures Sorted(Without(q, tid)) && forall w | w in Without(q, tid) :: w in q
    decreases q
  {
    if q != [] {
      WithoutInOrder(q[1..], tid);
      forall w | w in Without(q[1..], tid) ensures q[0].prio <= w.prio {
        var k :| 0 <= k < |q[1..]| && q[1..][k] == w;
        assert q[k + 1] == w;
      }
    }
  }

  /** One comes somewhere before the other. */
  ghost predicate Precedes<T>(s: seq<T>, x: T, y: T) {
    exists a, b :: 0 <= a < b < |s| && s[a] == x && s[b] == y
  }

  lemma {:induction false} PrecedesFirst<T>(h: T, s: seq<T>, x: T, y: T, first: bool)
    requires if first then x == h && y in s else Precedes(s, x, y)
    ensures Precedes([h] + s, x, y)
  {
    if first {
      var b :| 0 <= b < |s| && s[b] == y;
      assert ([h] + s)[0] == x && ([h] + s)[b + 1] == y;
    } else {
      var a, b :| 0 <= a < b < |s| && s[a] == x && s[b] == y;
      assert ([h] + s)[a + 1] == x && ([h] + s)[b + 1] == y;
    }
  }

  lemma {:induction false} PrecedesLast<T>(s: seq<T>, h: T, x: T, y: T, last: bool)
    requires if last then y == h && x in s else Precedes(s, x, y)
    ensures Precedes(s + [h], x, y)
  {
    if last {
      var a :| 0 <= a < |s| && s[a] == x;
      assert (s + [h])[a] == x && (s + [h])[|s|] == y;
    } else {
      var a, b :| 0 <= a < b < |s| && s[a] == x && s[b] == y;
      assert (s + [h])[a] == x && (s + [h])[b] == y;
    }
  }

  /** Removing a thread lets nobody overtake. */
  lemma {:induction false} WithoutKeepsOrder<T>(q: seq<Waiter<T>>, tid: Tid, i: nat, j: nat)
    requires i < j < |q| && q[i].tid != tid && q[j].tid != tid
    ensures Precedes(Without(q, tid), q[i], q[j])
    decreases q
  {
    hide Precedes;
    var rest := q[1..];
    assert q[j] == rest[j - 1];
    WithoutMembers(rest, tid);
    if i > 0 {
      assert q[i] == rest[i - 1];
      WithoutKeepsOrder(rest, tid, i - 1, j - 1);
    }
    if q[0].tid != tid { PrecedesFirst(q[0], Without(rest, tid), q[i], q[j], i == 0); }
  }
}
