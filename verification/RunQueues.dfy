/** The three interchangeable priority queues of kernel/sched.c: the sorted list ("dumb"), the
    red/black tree and the bitmask multi-queue.  Each is proved to hold the same queue, namely
    the threads in the order they were added, and so to agree on the best thread. */
module RunQueues {

  const TWO31 := 0x8000_0000
  const TWO32 := 0x1_0000_0000

  /** `due` is the deadline as an unbounded cycle count; the code stores it modulo 2^32. */
  datatype Thread = Thread(id: nat, prio: int, due: int)

  datatype Option<+T> = None | Some(value: T)

  // ---------------------------------------------------------------- comparing threads

  /** The value of a 32-bit word read as a signed number. */
  function Signed(word: int): int
    requires 0 <= word < TWO32
  {
    if word < TWO31 then word else word - TWO32
  }

  /** z_sched_prio_cmp(): positive if the first thread is to run before the second.
      `edf` is CONFIG_SCHED_DEADLINE. */
  function PrioCmp(t1: Thread, t2: Thread, edf: bool): int {
    if t1.prio != t2.prio then t2.prio - t1.prio
    else
      var d1, d2 := t1.due % TWO32, t2.due % TWO32;
      if edf && d1 != d2 then Signed((d2 - d1) % TWO32) else 0
  }

  /** The order meant: priority first, then the true deadline. */
  predicate Better(t: Thread, u: Thread, edf: bool) {
    t.prio < u.prio || (t.prio == u.prio && edf && t.due < u.due)
  }

  /** With deadlines less than half the 32-bit range apart, the wrapping comparison is exact. */
  lemma {:induction false} CmpIsExact(t: Thread, u: Thread, edf: bool)
    requires -TWO31 <= u.due - t.due < TWO31
    ensures PrioCmp(t, u, edf) > 0 <==> Better(t, u, edf)
    ensures -TWO31 < u.due - t.due ==> (PrioCmp(t, u, edf) < 0 <==> Better(u, t, edf))
  {
    ModDifference(u.due, t.due);
  }

  lemma {:induction false} ModDifference(x: int, y: int)
    requires -TWO31 <= x - y < TWO31
    ensures Signed((x % TWO32 - y % TWO32) % TWO32) == x - y
    ensures x % TWO32 == y % TWO32 <==> x == y
  {
    var a, b := x / TWO32, y / TWO32;
    assert x % TWO32 - y % TWO32 == x - y - TWO32 * (a - b);
    assert a - b == -1 || a - b == 0 || a - b == 1;
  }

  /** The bound is tight: at a distance of exactly half the range the comparison turns round. */
  lemma {:induction false} CmpTurnsRound(t: Thread, u: Thread)
    requires t.prio == u.prio && u.due == t.due + TWO31
    ensures Better(t, u, true) && PrioCmp(t, u, true) < 0
  {
    var a, b := u.due / TWO32, t.due / TWO32;
    assert u.due % TWO32 - t.due % TWO32 == TWO31 - TWO32 * (a - b);
    assert a - b == 0 || a - b == 1;
  }

  /** All deadlines lie within one half of the range, as the API demands. */
  ghost predicate Window(q: seq<Thread>, edf: bool) {
    edf ==> forall i, j | 0 <= i < |q| && 0 <= j < |q| :: -TWO31 < q[i].due - q[j].due < TWO31
  }

  // ---------------------------------------------------------------- the reference queue

  /** Behind every thread that is not worse. */
  function Insert(q: seq<Thread>, t: Thread, edf: bool): (r: seq<Thread>) {
    if q == [] then [t]
    else if Better(t, q[0], edf) then [t] + q
    else [q[0]] + Insert(q[1..], t, edf)
  }

  /** The threads, added in the order of `arrivals`, as they should stand in the queue. */
  function Queue(arrivals: seq<Thread>, edf: bool): (r: seq<Thread>)
    decreases |arrivals|
  {
    if arrivals == [] then []
    else Insert(Queue(arrivals[..|arrivals| - 1], edf), arrivals[|arrivals| - 1], edf)
  }

  function Drop(q: seq<Thread>, id: nat): (r: seq<Thread>) {
    if q == [] then []
    else if q[0].id == id then Drop(q[1..], id)
    else [q[0]] + Drop(q[1..], id)
  }

  ghost predicate Ordered(q: seq<Thread>, edf: bool) {
    forall i, j | 0 <= i < j < |q| :: !Better(q[j], q[i], edf)
  }

  ghost predicate Distinct(q: seq<Thread>) {
    forall i, j | 0 <= i < j < |q| :: q[i].id != q[j].id
  }

  lemma {:induction false} InsertMembers(q: seq<Thread>, t: Thread, edf: bool)
    ensures forall x :: x in Insert(q, t, edf) <==> x in q || x == t
    decreases q
  {
    if q != [] { InsertMembers(q[1..], t, edf); }
  }

  lemma {:induction false} InsertOrdered(q: seq<Thread>, t: Thread, edf: bool)
    requires Ordered(q, edf)
    ensures Ordered(Insert(q, t, edf), edf)
    decreases q
  {
    if q != [] && !Better(t, q[0], edf) {
      assert Ordered(q[1..], edf);
      InsertOrdered(q[1..], t, edf);
      InsertMembers(q[1..], t, edf);
      forall x | x in Insert(q[1..], t, edf) ensures !Better(x, q[0], edf) {
        if x in q[1..] { var k :| 0 <= k < |q[1..]| && q[1..][k] == x; assert q[k + 1] == x; }
      }
    }
  }

  lemma {:induction false} QueueOrdered(arrivals: seq<Thread>, edf: bool)
    ensures Ordered(Queue(arrivals, edf), edf)
    ensures forall x :: x in Queue(arrivals, edf) <==> x in arrivals
    decreases |arrivals|
  {
    if arrivals != [] {
      var front, t := arrivals[..|arrivals| - 1], arrivals[|arrivals| - 1];
      QueueOrdered(front, edf);
      InsertOrdered(Queue(front, edf), t, edf);
      InsertMembers(Queue(front, edf), t, edf);
      assert arrivals == front + [t];
    }
  }

  /** Removing a thread commutes with adding another one. */
  lemma {:induction false} DropInsert(q: seq<Thread>, t: Thread, id: nat, edf: bool)
    requires Ordered(q, edf)
    ensures Drop(Insert(q, t, edf), id) == if t.id == id then Drop(q, id) else Insert(Drop(q, id), t, edf)
    decreases q
  {
    if q == [] {
      assert [t][1..] == [];
    } else if Better(t, q[0], edf) {
      assert ([t] + q)[1..] == q;
      if t.id != id { InsertFirst(Drop(q, id), t, id, edf, q); }
    } else {
      assert Ordered(q[1..], edf);
      DropInsert(q[1..], t, id, edf);
      assert ([q[0]] + Insert(q[1..], t, edf))[1..] == Insert(q[1..], t, edf);
    }
  }

  lemma {:induction false} InsertFirst(d: seq<Thread>, t: Thread, id: nat, edf: bool, q: seq<Thread>)
    requires q != [] && Ordered(q, edf) && Better(t, q[0], edf) && d == Drop(q, id)
    ensures Insert(d, t, edf) == [t] + d
  {
    DropMembers(q, id);
    if d != [] {
      var k :| 0 <= k < |q| && q[k] == d[0];
      assert k == 0 || !Better(q[k], q[0], edf);
    }
  }

  lemma {:induction false} DropMembers(q: seq<Thread>, id: nat)
    ensures forall x :: x in Drop(q, id) <==> x in q && x.id != id
    decreases q
  {
    if q != [] { DropMembers(q[1..], id); }
  }

  /** So the queue of the remaining arrivals is the queue without the removed thread. */
  lemma {:induction false} QueueDrop(arrivals: seq<Thread>, id: nat, edf: bool)
    ensures Queue(Drop(arrivals, id), edf) == Drop(Queue(arrivals, edf), id)
    decreases |arrivals|
  {
    if arrivals != [] {
      var front, t := arrivals[..|arrivals| - 1], arrivals[|arrivals| - 1];
      assert arrivals == front + [t];
      DropConcat(front, t, id);
      QueueDrop(front, id, edf);
      QueueOrdered(front, edf);
      DropInsert(Queue(front, edf), t, id, edf);
      if t.id != id {
        var d := Drop(front, id) + [t];
        assert d[..|d| - 1] == Drop(front, id);
      }
    }
  }

  lemma {:induction false} DropConcat(q: seq<Thread>, t: Thread, id: nat)
    ensures Drop(q + [t], id) == if t.id == id then Drop(q, id) else Drop(q, id) + [t]
    decreases q
  {
    if q == [] {
      assert q + [t] == [t] && [t][1..] == [];
    } else {
      assert (q + [t])[0] == q[0] && (q + [t])[1..] == q[1..] + [t];
      DropConcat(q[1..], t, id);
    }
  }

  lemma {:induction false} DropUnique(q: seq<Thread>, i: nat)
    requires Distinct(q) && i < |q|
    ensures Drop(q, q[i].id) == q[..i] + q[i + 1..]
    decreases q
  {
    assert Distinct(q[1..]);
    if i == 0 {
      DropAbsent(q[1..], q[0].id);
    } else {
      DropUnique(q[1..], i - 1);
      assert q[..i] == [q[0]] + q[1..][..i - 1] && q[i + 1..] == q[1..][i..];
    }
  }

  lemma {:induction false} DropAbsent(q: seq<Thread>, id: nat)
    requires forall x | x in q :: x.id != id
    ensures Drop(q, id) == q
    decreases q
  {
    if q != [] { DropAbsent(q[1..], id); }
  }

  // ---------------------------------------------------------------- the best thread

  /** The thread to run next: nobody is better, and nobody as good was added earlier. */
  ghost predicate IsBest(arrivals: seq<Thread>, i: nat, edf: bool) {
    && i < |arrivals|
    && (forall j | 0 <= j < |arrivals| :: !Better(arrivals[j], arrivals[i], edf))
    && (forall j | 0 <= j < i :: Better(arrivals[i], arrivals[j], edf))
  }

  lemma {:induction false} BestUnique(arrivals: seq<Thread>, i: nat, j: nat, edf: bool)
    requires IsBest(arrivals, i, edf) && IsBest(arrivals, j, edf)
    ensures i == j
  {
    var x, y := arrivals[i], arrivals[j];
    assert !Better(x, y, edf) && !Better(y, x, edf);
  }

  /** The head of the queue is the best thread. */
  lemma {:induction false} HeadIsBest(arrivals: seq<Thread>, edf: bool) returns (i: nat)
    requires arrivals != []
    ensures IsBest(arrivals, i, edf) && Queue(arrivals, edf) != [] && Queue(arrivals, edf)[0] == arrivals[i]
    decreases |arrivals|
  {
    var n := |arrivals| - 1;
    var front, t := arrivals[..n], arrivals[n];
    if front == [] {
      i := 0;
      assert Queue(front, edf) == [];
    } else {
      var k := HeadIsBest(front, edf);
      i := if Better(t, front[k], edf) then n else k;
      BestOfMore(front, k, t, edf);
      assert arrivals == front + [t];
    }
  }

  lemma {:induction false} BestOfMore(front: seq<Thread>, k: nat, t: Thread, edf: bool)
    requires IsBest(front, k, edf)
    ensures IsBest(front + [t], if Better(t, front[k], edf) then |front| else k, edf)
  {
  }

  /** What every backend is to answer. */
  function BestOf(arrivals: seq<Thread>, edf: bool): Option<Thread> {
    var q := Queue(arrivals, edf);
    if q == [] then None else Some(q[0])
  }

  method IndexOf(q: seq<Thread>, id: nat) returns (i: nat)
    requires exists t :: t in q && t.id == id
    ensures i < |q| && q[i].id == id
  {
    i := 0;
    while q[i].id != id
      invariant i < |q|
      invariant forall j | 0 <= j < i :: q[j].id != id
      decreases |q| - i
    {
      assert exists j :: 0 <= j < |q| && q[j].id == id;
      i := i + 1;
    }
  }

  ghost predicate Has(q: seq<Thread>, id: nat) {
    exists t :: t in q && t.id == id
  }

  /** What the callers keep to: a thread is queued at most once, deadlines stay within half
      the 32-bit range. */
  ghost predicate Admissible(arrivals: seq<Thread>, edf: bool) {
    Distinct(arrivals) && Window(arrivals, edf)
  }

  lemma {:induction false} AdmissibleDrop(arrivals: seq<Thread>, id: nat, edf: bool)
    requires Admissible(arrivals, edf)
    ensures Admissible(Drop(arrivals, id), edf)
  {
    if Has(arrivals, id) {
      var t :| t in arrivals && t.id == id;
      var i :| 0 <= i < |arrivals| && arrivals[i] == t;
      DropUnique(arrivals, i);
    } else {
      DropAbsent(arrivals, id);
    }
  }

  lemma {:induction false} QueueDistinct(arrivals: seq<Thread>, edf: bool)
    requires Distinct(arrivals)
    ensures Distinct(Queue(arrivals, edf))
    decreases |arrivals|
  {
    if arrivals != [] {
      var n := |arrivals| - 1;
      var front, t := arrivals[..n], arrivals[n];
      QueueDistinct(front, edf);
      QueueOrdered(front, edf);
      forall x | x in Queue(front, edf) ensures x.id != t.id {
        var k :| 0 <= k < |front| && front[k] == x;
        assert arrivals[k] == x;
      }
      InsertDistinct(Queue(front, edf), t, edf);
    }
  }

  lemma {:induction false} InsertDistinct(q: seq<Thread>, t: Thread, edf: bool)
    requires Distinct(q) && forall x | x in q :: x.id != t.id
    ensures Distinct(Insert(q, t, edf))
    decreases q
  {
    if q != [] && !Better(t, q[0], edf) {
      assert Distinct(q[1..]);
      InsertDistinct(q[1..], t, edf);
      InsertMembers(q[1..], t, edf);
      var r := Insert(q[1..], t, edf);
      forall x | x in r ensures x.id != q[0].id {
        if x in q[1..] { var k :| 0 <= k < |q[1..]| && q[1..][k] == x; assert q[k + 1] == x; }
      }
    }
  }

  /** Taking the queued node out of the list is dropping the arrival. */
  lemma {:induction false} TakeOut(arrivals: seq<Thread>, q: seq<Thread>, i: nat, edf: bool)
    requires Distinct(arrivals) && q == Queue(arrivals, edf) && i < |q|
    ensures q[..i] + q[i + 1..] == Queue(Drop(arrivals, q[i].id), edf)
  {
    QueueDistinct(arrivals, edf);
    DropUnique(q, i);
    QueueDrop(arrivals, q[i].id, edf);
  }

  /** A thread that may join the queue. */
  ghost predicate Stranger(q: seq<Thread>, t: Thread, edf: bool) {
    forall i | 0 <= i < |q| :: q[i].id != t.id && (edf ==> -TWO31 < q[i].due - t.due < TWO31)
  }

  lemma {:induction false} NewcomerIsStranger(arrivals: seq<Thread>, t: Thread, edf: bool)
    requires Admissible(arrivals + [t], edf)
    ensures Stranger(Queue(arrivals, edf), t, edf) && Ordered(Queue(arrivals, edf), edf)
  {
    QueueOrdered(arrivals, edf);
    var more, n, q := arrivals + [t], |arrivals|, Queue(arrivals, edf);
    forall i | 0 <= i < |q| ensures q[i].id != t.id && (edf ==> -TWO31 < q[i].due - t.due < TWO31) {
      assert q[i] in arrivals;
      var k :| 0 <= k < n && arrivals[k] == q[i];
      assert more[k] == q[i] && more[n] == t;
    }
  }

  lemma {:induction false} QueueAppend(arrivals: seq<Thread>, t: Thread, edf: bool)
    ensures Queue(arrivals + [t], edf) == Insert(Queue(arrivals, edf), t, edf)
  {
    assert (arrivals + [t])[..|arrivals|] == arrivals;
  }

  // ---------------------------------------------------------------- the sorted list

  lemma {:induction false} InsertAt(q: seq<Thread>, t: Thread, i: nat, edf: bool)
    requires i <= |q| && (forall j | 0 <= j < i :: !Better(t, q[j], edf))
    requires i < |q| ==> Better(t, q[i], edf)
    ensures Insert(q, t, edf) == q[..i] + [t] + q[i..]
    decreases i
  {
    if i != 0 {
      InsertAt(q[1..], t, i - 1, edf);
      assert q[..i] == [q[0]] + q[1..][..i - 1] && q[1..][i - 1..] == q[i..];
    }
  }

  class SortedList {
    var list: seq<Thread>
    const edf: bool
    ghost var arrivals: seq<Thread>

    ghost predicate Valid()
      reads this
    {
      Admissible(arrivals, edf) && list == Queue(arrivals, edf)
    }

    constructor (edf: bool)
      ensures Valid() && this.edf == edf && arrivals == []
    {
      list, arrivals := [], [];
      this.edf := edf;
    }

    /** z_priq_dumb_add() */
    method Add(t: Thread)
      requires Valid() && Admissible(arrivals + [t], edf)
      modifies this
      ensures Valid() && arrivals == old(arrivals) + [t]
    {
      hide Admissible, Distinct, Window, Insert, Queue;
      NewcomerIsStranger(arrivals, t, edf);
      QueueAppend(arrivals, t, edf);
      var i := 0;
      while i < |list| && PrioCmp(t, list[i], edf) <= 0
        modifies {}
        invariant i <= |list|
        invariant forall j | 0 <= j < i :: !Better(t, list[j], edf)
      {
        CmpDecides(t, list[i], edf);
        i := i + 1;
      }
      if i < |list| { CmpDecides(t, list[i], edf); }
      InsertAt(list, t, i, edf);
      list := list[..i] + [t] + list[i..];
      arrivals := arrivals + [t];
    }

    /** z_priq_dumb_remove() */
    method Remove(id: nat)
      requires Valid() && Has(arrivals, id)
      modifies this
      ensures Valid() && arrivals == Drop(old(arrivals), id)
    {
      QueueOrdered(arrivals, edf);
      var i := IndexOf(list, id);
      TakeOut(arrivals, list, i, edf);
      AdmissibleDrop(arrivals, id, edf);
      list := list[..i] + list[i + 1..];
      arrivals := Drop(arrivals, id);
    }

    /** z_priq_dumb_best() */
    method Best() returns (r: Option<Thread>)
      requires Valid()
      ensures r == BestOf(arrivals, edf)
    {
      r := if list == [] then None else Some(list[0]);
    }
  }

  lemma {:induction false} CmpDecides(t: Thread, u: Thread, edf: bool)
    requires -TWO31 <= u.due - t.due < TWO31 || !edf
    ensures PrioCmp(t, u, edf) > 0 <==> Better(t, u, edf)
  {
    if edf { ModDifference(u.due, t.due); }
  }

  // ---------------------------------------------------------------- the red/black tree

  /** A thread in the tree together with its order_key. */
  datatype Node = Node(thread: Thread, key: nat)

  /** z_priq_rb_lessthan() */
  predicate LessThan(a: Node, b: Node, edf: bool) {
    var cmp := PrioCmp(a.thread, b.thread, edf);
    if cmp > 0 then true else if cmp < 0 then false else a.key < b.key
  }

  /** The tree's nodes are held in key order, as its iteration macros visit them. */
  function InsertNode(nodes: seq<Node>, n: Node, edf: bool): seq<Node> {
    if nodes == [] then [n]
    else if LessThan(n, nodes[0], edf) then [n] + nodes
    else [nodes[0]] + InsertNode(nodes[1..], n, edf)
  }

  function Threads(nodes: seq<Node>): (r: seq<Thread>)
    ensures |r| == |nodes| && forall i | 0 <= i < |nodes| :: r[i] == nodes[i].thread
  {
    seq(|nodes|, i requires 0 <= i < |nodes| => nodes[i].thread)
  }

  ghost predicate Tied(t: Thread, u: Thread, edf: bool) {
    !Better(t, u, edf) && !Better(u, t, edf)
  }

  /** No thread that ties with the new one holds a larger order key. */
  ghost predicate KeysFit(nodes: seq<Node>, n: Node, edf: bool) {
    forall i | 0 <= i < |nodes| && Tied(n.thread, nodes[i].thread, edf) :: nodes[i].key <= n.key
  }

  /** The tree serves equals first come, first served on an insertion if and only if no tied
      thread holds a larger key. */
  lemma {:induction false} InsertNodeFifo(nodes: seq<Node>, n: Node, edf: bool)
    requires Ordered(Threads(nodes), edf) && Stranger(Threads(nodes), n.thread, edf)
    ensures Threads(InsertNode(nodes, n, edf)) == Insert(Threads(nodes), n.thread, edf) <==> KeysFit(nodes, n, edf)
    decreases nodes
  {
    var ts := Threads(nodes);
    if nodes == [] {
      assert ts == [];
    } else {
      var h, rest := nodes[0], nodes[1..];
      assert ts[1..] == Threads(rest);
      LessThanMeans(n, h, edf);
      if Better(n.thread, h.thread, edf) {
        assert Threads([n] + nodes) == [n.thread] + ts;
        assert forall i | 0 <= i < |nodes| :: i == 0 || !Better(ts[i], ts[0], edf);
      } else if LessThan(n, h, edf) {
        assert Tied(n.thread, h.thread, edf) && h.key > n.key;
        assert Threads(InsertNode(nodes, n, edf))[0] == n.thread;
        assert Insert(ts, n.thread, edf)[0] == h.thread;
      } else {
        InsertNodeFifo(rest, n, edf);
        ConsThreads(h, InsertNode(rest, n, edf));
        KeysFitCons(nodes, n, edf);
        ConsEqual(h.thread, Threads(InsertNode(rest, n, edf)), Insert(Threads(rest), n.thread, edf));
      }
    }
  }

  lemma {:induction false} LessThanMeans(a: Node, b: Node, edf: bool)
    requires edf ==> -TWO31 < b.thread.due - a.thread.due < TWO31
    ensures LessThan(a, b, edf) <==>
      Better(a.thread, b.thread, edf) || (Tied(a.thread, b.thread, edf) && a.key < b.key)
  {
    if edf { CmpIsExact(a.thread, b.thread, edf); }
  }

  lemma {:induction false} ConsThreads(h: Node, rest: seq<Node>)
    ensures Threads([h] + rest) == [h.thread] + Threads(rest)
  {
  }

  lemma {:induction false} ConsEqual(t: Thread, a: seq<Thread>, b: seq<Thread>)
    ensures [t] + a == [t] + b <==> a == b
  {
    if [t] + a == [t] + b { assert a == ([t] + a)[1..] == ([t] + b)[1..] == b; }
  }

  lemma {:induction false} KeysFitCons(nodes: seq<Node>, n: Node, edf: bool)
    requires nodes != [] && (Tied(n.thread, nodes[0].thread, edf) ==> nodes[0].key <= n.key)
    ensures KeysFit(nodes, n, edf) <==> KeysFit(nodes[1..], n, edf)
  {
    var rest := nodes[1..];
    assert forall i | 0 <= i < |rest| :: rest[i] == nodes[i + 1];
    if KeysFit(rest, n, edf) {
      forall i | 0 <= i < |nodes| && Tied(n.thread, nodes[i].thread, edf) ensures nodes[i].key <= n.key {
        if i != 0 { assert rest[i - 1] == nodes[i]; }
      }
    }
  }

  /** The renumbering that runs when the 32-bit key counter wraps. */
  function Renumbered(nodes: seq<Node>): (r: seq<Node>)
    ensures |r| == |nodes| && Threads(r) == Threads(nodes)
    ensures forall i | 0 <= i < |r| :: r[i].key == i
  {
    seq(|nodes|, i requires 0 <= i < |nodes| => Node(nodes[i].thread, i))
  }

  ghost predicate KeysBelow(nodes: seq<Node>, bound: nat) {
    forall i | 0 <= i < |nodes| :: nodes[i].key < bound
  }

  lemma {:induction false} InsertNodeKeys(nodes: seq<Node>, n: Node, edf: bool, bound: nat)
    requires KeysBelow(nodes, bound) && n.key < bound
    ensures KeysBelow(InsertNode(nodes, n, edf), bound)
    decreases nodes
  {
    if nodes != [] && !LessThan(n, nodes[0], edf) { InsertNodeKeys(nodes[1..], n, edf, bound); }
  }

  class Tree {
    var nodes: seq<Node>
    var nextOrderKey: nat
    const edf: bool
    ghost var arrivals: seq<Thread>

    ghost predicate Valid()
      reads this
    {
      && nextOrderKey < TWO32
      && |nodes| < TWO32
      && Admissible(arrivals, edf)
      && Threads(nodes) == Queue(arrivals, edf)
    }

    constructor (edf: bool)
      ensures Valid() && this.edf == edf && arrivals == [] && nextOrderKey == 0 && nodes == []
    {
      nodes, nextOrderKey, arrivals := [], 0, [];
      this.edf := edf;
    }

    /** z_priq_rb_add().  Arrival order survives the addition exactly when the counter is about
        to wrap or no tied thread holds a key above it.  The keys stay below the counter until
        it wraps, so until then it always survives. */
    method Add(t: Thread)
      requires Valid() && Admissible(arrivals + [t], edf) && |nodes| + 1 < TWO32
      modifies this
      ensures arrivals == old(arrivals) + [t]
      ensures Valid() <==> (old(nextOrderKey) == TWO32 - 1 || KeysFit(old(nodes), Node(t, old(nextOrderKey)), edf))
      ensures old(KeysBelow(nodes, nextOrderKey)) ==> Valid()
      ensures old(KeysBelow(nodes, nextOrderKey)) && old(nextOrderKey) < TWO32 - 1 ==>
        KeysBelow(nodes, nextOrderKey) && nextOrderKey == old(nextOrderKey) + 1
      ensures |nodes| == old(|nodes|) + 1
    {
      hide Queue, Insert, InsertNode, Admissible, Stranger, Ordered, Tied;
      ghost var before, threads := nodes, Threads(nodes);
      var n := Node(t, nextOrderKey);
      nextOrderKey := (nextOrderKey + 1) % TWO32;
      if nextOrderKey == 0 {
        nodes := Renumbered(nodes);
        nextOrderKey := |nodes| % TWO32;
      }
      NewcomerIsStranger(arrivals, t, edf);
      InsertNodeFifo(nodes, n, edf);
      InsertNodeLength(nodes, n, edf);
      if KeysBelow(before, n.key) { InsertNodeKeys(nodes, n, edf, n.key + 1); }
      nodes := InsertNode(nodes, n, edf);
      arrivals := arrivals + [t];
      QueueAppend(old(arrivals), t, edf);
      assert Valid() <==> Threads(nodes) == Insert(threads, t, edf);
    }

    /** z_priq_rb_remove() */
    method Remove(id: nat)
      requires Valid() && Has(arrivals, id)
      modifies this
      ensures Valid() && arrivals == Drop(old(arrivals), id)
      ensures nextOrderKey == if nodes == [] then 0 else old(nextOrderKey)
      ensures old(KeysBelow(nodes, nextOrderKey)) ==> KeysBelow(nodes, nextOrderKey)
      ensures |nodes| + 1 == old(|nodes|)
    {
      QueueOrdered(arrivals, edf);
      var i := IndexOf(Threads(nodes), id);
      TakeOut(arrivals, Threads(nodes), i, edf);
      AdmissibleDrop(arrivals, id, edf);
      assert Threads(nodes[..i] + nodes[i + 1..]) == Threads(nodes)[..i] + Threads(nodes)[i + 1..];
      nodes := nodes[..i] + nodes[i + 1..];
      arrivals := Drop(arrivals, id);
      if nodes == [] { nextOrderKey := 0; }
    }

    /** z_priq_rb_best() */
    method Best() returns (r: Option<Thread>)
      requires Valid()
      ensures r == BestOf(arrivals, edf)
    {
      assert |nodes| == |Threads(nodes)|;
      r := if nodes == [] then None else Some(nodes[0].thread);
    }
  }

  lemma {:induction false} InsertNodeLength(nodes: seq<Node>, n: Node, edf: bool)
    ensures |InsertNode(nodes, n, edf)| == |nodes| + 1
    decreases nodes
  {
    if nodes != [] { InsertNodeLength(nodes[1..], n, edf); }
  }

  /** After the counter has wrapped, the thread whose addition wrapped it keeps the largest key:
      of two equals added later, both overtake it. */
  lemma {:induction false} WrapBreaksFifo(a: Thread, b: Thread, c: Thread)
    requires a.id != b.id && b.id != c.id && a.id != c.id && a.prio == b.prio == c.prio
    ensures
      var wrapped := InsertNode(Renumbered([Node(a, 7)]), Node(b, TWO32 - 1), false);
      && Threads(wrapped) == Queue([a, b], false)
      && Threads(InsertNode(wrapped, Node(c, 1), false)) == [a, c, b]
      && Queue([a, b, c], false) == [a, b, c]
  {
    assert Renumbered([Node(a, 7)]) == [Node(a, 0)];
    var wrapped := InsertNode([Node(a, 0)], Node(b, TWO32 - 1), false);
    assert [Node(a, 0)][1..] == [] && [a][1..] == [];
    assert InsertNode([], Node(b, TWO32 - 1), false) == [Node(b, TWO32 - 1)];
    assert wrapped == [Node(a, 0), Node(b, TWO32 - 1)];
    assert [a, b][..1] == [a] && [a][..0] == [];
    assert Queue([], false) == [];
    assert Queue([a], false) == [a];
    assert Insert([], b, false) == [b];
    assert Queue([a, b], false) == [a, b];
    assert wrapped[1..] == [Node(b, TWO32 - 1)];
    assert InsertNode(wrapped, Node(c, 1), false) == [Node(a, 0), Node(c, 1), Node(b, TWO32 - 1)];
    assert [a, b, c][..2] == [a, b] && [a, b][1..] == [b];
    assert Insert([b], c, false) == [b, c];
  }

  // ---------------------------------------------------------------- the multi-queue

  const PRIORITIES := 32

  function Level(arrivals: seq<Thread>, prio: int): (r: seq<Thread>)
    ensures forall t | t in r :: t.prio == prio
  {
    if arrivals == [] then []
    else if arrivals[0].prio == prio then [arrivals[0]] + Level(arrivals[1..], prio)
    else Level(arrivals[1..], prio)
  }

  lemma {:induction false} LevelAppend(arrivals: seq<Thread>, t: Thread, prio: int)
    ensures Level(arrivals + [t], prio) == if t.prio == prio then Level(arrivals, prio) + [t] else Level(arrivals, prio)
    decreases arrivals
  {
    if arrivals == [] {
      assert arrivals + [t] == [t] && [t][1..] == [];
    } else {
      assert (arrivals + [t])[1..] == arrivals[1..] + [t];
      LevelAppend(arrivals[1..], t, prio);
    }
  }

  lemma {:induction false} LevelDrop(arrivals: seq<Thread>, id: nat, prio: int)
    ensures Level(Drop(arrivals, id), prio) == Drop(Level(arrivals, prio), id)
    decreases arrivals
  {
    if arrivals != [] {
      LevelDrop(arrivals[1..], id, prio);
      var h, rest := arrivals[0], Drop(arrivals[1..], id);
      assert ([h] + rest)[1..] == rest;
      var level := Level(arrivals[1..], prio);
      assert ([h] + level)[1..] == level;
    }
  }

  lemma {:induction false} LevelMembers(arrivals: seq<Thread>, prio: int)
    ensures forall t :: t in Level(arrivals, prio) <==> t in arrivals && t.prio == prio
    decreases arrivals
  {
    if arrivals != [] { LevelMembers(arrivals[1..], prio); }
  }

  lemma {:induction false} LevelDistinct(arrivals: seq<Thread>, prio: int)
    requires Distinct(arrivals)
    ensures Distinct(Level(arrivals, prio))
    decreases arrivals
  {
    if arrivals != [] {
      assert Distinct(arrivals[1..]);
      LevelDistinct(arrivals[1..], prio);
      LevelMembers(arrivals[1..], prio);
      var level := Level(arrivals[1..], prio);
      forall t | t in level ensures t.id != arrivals[0].id {
        var k :| 0 <= k < |arrivals[1..]| && arrivals[1..][k] == t;
        assert arrivals[k + 1] == t;
      }
    }
  }

  lemma {:induction false} LevelHead(arrivals: seq<Thread>, prio: int) returns (i: nat)
    requires Level(arrivals, prio) != []
    ensures i < |arrivals| && arrivals[i] == Level(arrivals, prio)[0] && arrivals[i].prio == prio
    ensures forall j | 0 <= j < i :: arrivals[j].prio != prio
    decreases arrivals
  {
    if arrivals[0].prio == prio {
      i := 0;
    } else {
      var k := LevelHead(arrivals[1..], prio);
      i := k + 1;
      forall j | 0 <= j < i ensures arrivals[j].prio != prio { if j != 0 { assert arrivals[1..][j - 1] == arrivals[j]; } }
    }
  }

  /** The head of the first non-empty level is the best thread. */
  lemma {:induction false} LowestLevelIsBest(arrivals: seq<Thread>, prio: int)
    requires Level(arrivals, prio) != [] && forall i | 0 <= i < |arrivals| :: arrivals[i].prio >= prio
    ensures BestOf(arrivals, false) == Some(Level(arrivals, prio)[0])
  {
    var i := LevelHead(arrivals, prio);
    assert IsBest(arrivals, i, false);
    var k := HeadIsBest(arrivals, false);
    BestUnique(arrivals, i, k, false);
  }

  ghost predicate Levels(queues: seq<seq<Thread>>, arrivals: seq<Thread>, highest: int) {
    && |queues| == PRIORITIES
    && (forall i | 0 <= i < |arrivals| :: 0 <= arrivals[i].prio - highest < PRIORITIES)
    && (forall p | 0 <= p < PRIORITIES :: queues[p] == Level(arrivals, p + highest))
  }

  class MultiQueue {
    var queues: seq<seq<Thread>>
    /** The positions of the bits that are set in the 32-bit mask. */
    var bitmask: set<nat>
    const highest: int
    ghost var arrivals: seq<Thread>

    /** The build refuses configurations with more than 32 priorities. */
    ghost predicate Valid()
      reads this
    {
      && Distinct(arrivals)
      && Levels(queues, arrivals, highest)
      && (forall p | p in bitmask :: p < PRIORITIES)
      && (forall p | 0 <= p < PRIORITIES :: p in bitmask <==> queues[p] != [])
    }

    constructor (highest: int)
      ensures Valid() && this.highest == highest && arrivals == []
    {
      queues, bitmask, arrivals := seq(PRIORITIES, _ => []), {}, [];
      this.highest := highest;
    }

    /** z_priq_mq_add() */
    method Add(t: Thread)
      requires Valid() && Distinct(arrivals + [t]) && 0 <= t.prio - highest < PRIORITIES
      modifies this
      ensures Valid() && arrivals == old(arrivals) + [t]
    {
      hide Distinct, Level;
      LevelsAdd(queues, arrivals, highest, t);
      var bit := t.prio - highest;
      queues := queues[bit := queues[bit] + [t]];
      bitmask := bitmask + {bit};
      arrivals := arrivals + [t];
    }

    /** z_priq_mq_remove(): the caller names the thread, hence its priority too. */
    method Remove(t: Thread)
      requires Valid() && t in arrivals
      modifies this
      ensures Valid() && arrivals == Drop(old(arrivals), t.id)
    {
      hide Distinct, Level, Drop;
      ghost var k :| 0 <= k < |arrivals| && arrivals[k] == t;
      var bit := t.prio - highest;
      LevelMembers(arrivals, bit + highest);
      var i := IndexOf(queues[bit], t.id);
      LevelsDrop(queues, arrivals, highest, k, i);
      queues := queues[bit := queues[bit][..i] + queues[bit][i + 1..]];
      if queues[bit] == [] { bitmask := bitmask - {bit}; }
      arrivals := Drop(arrivals, t.id);
    }

    /** z_priq_mq_best(): the lowest set bit names the first non-empty queue. */
    method Best() returns (r: Option<Thread>)
      requires Valid()
      ensures r == BestOf(arrivals, false)
    {
      if bitmask == {} {
        EmptyLevels();
        return None;
      }
      var p := 0;
      while p !in bitmask
        invariant 0 <= p < PRIORITIES
        invariant forall j | 0 <= j < p :: j !in bitmask
        decreases PRIORITIES - p
      {
        var q :| q in bitmask;
        p := p + 1;
      }
      r := Some(queues[p][0]);
      NoneAbove(p);
      LowestLevelIsBest(arrivals, p + highest);
    }

    lemma {:induction false} NoneAbove(p: nat)
      requires Valid() && p <= PRIORITIES && forall j | 0 <= j < p :: j !in bitmask
      ensures forall i | 0 <= i < |arrivals| :: arrivals[i].prio >= p + highest
    {
      forall i | 0 <= i < |arrivals| ensures arrivals[i].prio >= p + highest {
        var q := arrivals[i].prio - highest;
        LevelMembers(arrivals, q + highest);
        assert arrivals[i] in queues[q];
      }
    }

    lemma {:induction false} EmptyLevels()
      requires Valid() && bitmask == {}
      ensures BestOf(arrivals, false) == None
    {
      if arrivals != [] {
        SomeLevel(queues, arrivals, highest);
        assert false;
      }
    }
  }

  lemma {:induction false} SomeLevel(queues: seq<seq<Thread>>, arrivals: seq<Thread>, highest: int)
    requires Levels(queues, arrivals, highest) && arrivals != []
    ensures exists p | 0 <= p < PRIORITIES :: queues[p] != []
  {
    var p := arrivals[0].prio - highest;
    LevelMembers(arrivals, p + highest);
    assert arrivals[0] in queues[p];
  }

  lemma {:induction false} LevelsAdd(queues: seq<seq<Thread>>, arrivals: seq<Thread>, highest: int, t: Thread)
    requires Levels(queues, arrivals, highest) && 0 <= t.prio - highest < PRIORITIES
    ensures var bit := t.prio - highest; Levels(queues[bit := queues[bit] + [t]], arrivals + [t], highest)
  {
    forall p | 0 <= p < PRIORITIES
      ensures Level(arrivals + [t], p + highest) == if t.prio == p + highest then queues[p] + [t] else queues[p]
    {
      LevelAppend(arrivals, t, p + highest);
    }
  }

  lemma {:induction false} LevelsDrop(queues: seq<seq<Thread>>, arrivals: seq<Thread>, highest: int, k: nat, i: nat)
    requires Distinct(arrivals) && k < |arrivals| && Levels(queues, arrivals, highest)
    requires var q := queues[arrivals[k].prio - highest]; i < |q| && q[i].id == arrivals[k].id
    ensures
      var bit := arrivals[k].prio - highest;
      Levels(queues[bit := queues[bit][..i] + queues[bit][i + 1..]], Drop(arrivals, arrivals[k].id), highest)
    ensures Distinct(Drop(arrivals, arrivals[k].id))
  {
    var t := arrivals[k];
    DropUnique(arrivals, k);
    forall p | 0 <= p < PRIORITIES
      ensures Level(Drop(arrivals, t.id), p + highest) ==
        if p == t.prio - highest then queues[p][..i] + queues[p][i + 1..] else queues[p]
    {
      LevelDropped(queues[p], arrivals, p + highest, k, i);
    }
  }

  lemma {:induction false} LevelDropped(q: seq<Thread>, arrivals: seq<Thread>, prio: int, k: nat, i: nat)
    requires Distinct(arrivals) && k < |arrivals| && q == Level(arrivals, prio)
    requires arrivals[k].prio == prio ==> i < |q| && q[i].id == arrivals[k].id
    ensures Level(Drop(arrivals, arrivals[k].id), prio) ==
      if arrivals[k].prio == prio then q[..i] + q[i + 1..] else q
  {
    LevelDrop(arrivals, arrivals[k].id, prio);
    if arrivals[k].prio == prio {
      LevelDistinct(arrivals, prio);
      DropUnique(q, i);
    } else {
      OtherLevel(arrivals, k, prio);
      DropAbsent(q, arrivals[k].id);
    }
  }

  lemma {:induction false} OtherLevel(arrivals: seq<Thread>, k: nat, prio: int)
    requires Distinct(arrivals) && k < |arrivals| && arrivals[k].prio != prio
    ensures forall x | x in Level(arrivals, prio) :: x.id != arrivals[k].id
  {
    LevelMembers(arrivals, prio);
    forall x | x in Level(arrivals, prio) ensures x.id != arrivals[k].id {
      var j :| 0 <= j < |arrivals| && arrivals[j] == x;
      assert j != k;
    }
  }

  // ---------------------------------------------------------------- the three in lockstep

  datatype Op = Add(thread: Thread) | Remove(thread: Thread)

  function Arrivals(ops: seq<Op>): (r: seq<Thread>)
    decreases |ops|
  {
    if ops == [] then []
    else
      var before := Arrivals(ops[..|ops| - 1]);
      match ops[|ops| - 1]
      case Add(t) => before + [t]
      case Remove(t) => Drop(before, t.id)
  }

  /** No thread is added while queued or removed while not, and every priority is in range. */
  ghost predicate Lawful(ops: seq<Op>, highest: int) {
    forall i {:trigger ops[i]} | 0 <= i < |ops| ::
      var before := Arrivals(ops[..i]);
      match ops[i]
      case Add(t) => !Has(before, t.id) && 0 <= t.prio - highest < PRIORITIES
      case Remove(t) => t in before
  }

  lemma {:induction false} LawfulStart()
    ensures Arrivals([]) == [] && KeysBelow([], 0)
  {
  }

  lemma {:induction false} LawfulStep(ops: seq<Op>, highest: int, i: nat)
    requires Lawful(ops, highest) && i < |ops|
    ensures
      var before, after := Arrivals(ops[..i]), Arrivals(ops[..i + 1]);
      && Admissible(after, false) && Distinct(after)
      && match ops[i]
         case Add(t) => after == before + [t] && 0 <= t.prio - highest < PRIORITIES
         case Remove(t) => after == Drop(before, t.id) && Has(before, t.id) && t in before
    decreases i
  {
    assert ops[..i + 1][..i] == ops[..i];
    if i != 0 { LawfulStep(ops, highest, i - 1); }
    match ops[i] {
      case Add(t) => DistinctAppend(Arrivals(ops[..i]), t);
      case Remove(t) =>
        assert Has(Arrivals(ops[..i]), t.id);
        AdmissibleDrop(Arrivals(ops[..i]), t.id, false);
    }
  }

  /** Any run of additions and removals too short to wrap the key counter: the three backends
      give the same answer after every step, the reference queue's best thread. */
  method Lockstep(ops: seq<Op>, highest: int)
    returns (list: seq<Option<Thread>>, tree: seq<Option<Thread>>, multi: seq<Option<Thread>>)
    requires Lawful(ops, highest) && |ops| < TWO32 - 1
    ensures list == tree == multi && |list| == |ops|
    ensures forall i | 0 <= i < |ops| :: list[i] == BestOf(Arrivals(ops[..i + 1]), false)
  {
    hide *;
    var l := new SortedList(false);
    var r := new Tree(false);
    var m := new MultiQueue(highest);
    list, tree, multi := [], [], [];
    LawfulStart();
    for i := 0 to |ops|
      invariant l.Valid() && r.Valid() && m.Valid() && !l.edf && !r.edf && m.highest == highest
      invariant l.arrivals == r.arrivals == m.arrivals == Arrivals(ops[..i])
      invariant |r.nodes| <= i && r.nextOrderKey <= i && KeysBelow(r.nodes, r.nextOrderKey)
      invariant list == tree == multi && |list| == i
      invariant forall j | 0 <= j < i :: list[j] == BestOf(Arrivals(ops[..j + 1]), false)
    {
      LawfulStep(ops, highest, i);
      match ops[i] {
        case Add(t) =>
          l.Add(t);
          r.Add(t);
          m.Add(t);
        case Remove(t) =>
          l.Remove(t.id);
          r.Remove(t.id);
          m.Remove(t);
      }
      var a := l.Best();
      var b := r.Best();
      var c := m.Best();
      list, tree, multi := list + [a], tree + [b], multi + [c];
    }
  }

  lemma {:induction false} DistinctAppend(arrivals: seq<Thread>, t: Thread)
    requires Distinct(arrivals) && !Has(arrivals, t.id)
    ensures Distinct(arrivals + [t])
  {
    assert forall i | 0 <= i < |arrivals| :: arrivals[i] in arrivals;
  }
}
