/** The run queue and wait queue protocol of kernel/sched.c on one processor: the thread state
    flags, the single run queue, and any number of wait queues, among them one join queue per
    thread. */
module UniScheduler {
  import W = WaitQueues

  type Tid = nat

  datatype Option<+T> = None | Some(value: T)

  /** A wait queue: one inside some kernel object, or the join queue of a thread. */
  datatype Qid = Object(id: nat) | Join(tid: Tid)

  /** struct _thread_base: the bits of thread_state, whether the thread's timeout is linked, and
      the queue it is pended on. */
  datatype Thread = Thread(
    prio: int, queued: bool, pending: bool, prestart: bool, suspended: bool, dead: bool,
    timeout: bool, pendedOn: Option<Qid>)

  /** z_is_thread_ready() */
  predicate Ready(th: Thread) {
    !th.pending && !th.prestart && !th.dead && !th.suspended && !th.timeout
  }

  // ---------------------------------------------------------------- queues of threads

  ghost predicate Distinct(q: seq<Tid>) {
    forall i, j | 0 <= i < j < |q| :: q[i] != q[j]
  }

  predicate Known(q: seq<Tid>, threads: map<Tid, Thread>) {
    forall i | 0 <= i < |q| :: q[i] in threads
  }

  ghost predicate SortedBy(q: seq<Tid>, threads: map<Tid, Thread>)
    requires Known(q, threads)
  {
    forall i, j | 0 <= i < j < |q| :: threads[q[i]].prio <= threads[q[j]].prio
  }

  /** z_priq_dumb_add(): before the first thread of lower priority. */
  function Insert(q: seq<Tid>, t: Tid, threads: map<Tid, Thread>): (r: seq<Tid>)
    requires Known(q, threads) && t in threads
    ensures |r| == |q| + 1 && forall x :: x in r <==> x in q || x == t
  {
    if q == [] then [t]
    else if threads[t].prio < threads[q[0]].prio then [t] + q
    else
      assert forall i | 0 <= i < |q[1..]| :: q[1..][i] == q[i + 1];
      [q[0]] + Insert(q[1..], t, threads)
  }

  function Omit(q: seq<Tid>, t: Tid): (r: seq<Tid>)
    ensures |r| <= |q| && (t in q ==> |r| < |q|)
    ensures forall x :: x in r <==> x in q && x != t
  {
    if q == [] then [] else if q[0] == t then Omit(q[1..], t) else [q[0]] + Omit(q[1..], t)
  }

  /** The others keep their order. */
  lemma {:induction false} OmitPlace(q: seq<Tid>, t: Tid, i: nat)
    requires i <= |q| && (forall j | 0 <= j < i :: q[j] != t)
    requires if i < |q| then q[i] == t && forall j | i < j < |q| :: q[j] != t else true
    ensures Omit(q, t) == if i < |q| then q[..i] + q[i + 1..] else q
    decreases q
  {
    if q != [] {
      var rest := q[1..];
      assert forall j | 0 <= j < |rest| :: rest[j] == q[j + 1];
      if i == 0 {
        OmitPlace(rest, t, |rest|);
        assert q[..0] + q[1..] == rest;
      } else {
        OmitPlace(rest, t, i - 1);
        assert i < |q| ==> q[..i] + q[i + 1..] == [q[0]] + (rest[..i - 1] + rest[i..]);
      }
    }
  }

  lemma {:induction false} InsertDistinct(q: seq<Tid>, t: Tid, threads: map<Tid, Thread>)
    requires Known(q, threads) && t in threads && Distinct(q) && t !in q
    ensures Distinct(Insert(q, t, threads))
    decreases q
  {
    if q != [] && threads[t].prio >= threads[q[0]].prio {
      assert forall i | 0 <= i < |q[1..]| :: q[1..][i] == q[i + 1];
      InsertDistinct(q[1..], t, threads);
      assert q[0] !in q[1..];
    }
  }

  lemma {:induction false} InsertSorted(q: seq<Tid>, t: Tid, threads: map<Tid, Thread>)
    requires Known(q, threads) && t in threads && SortedBy(q, threads)
    ensures Known(Insert(q, t, threads), threads) && SortedBy(Insert(q, t, threads), threads)
    decreases q
  {
    if q != [] && threads[t].prio >= threads[q[0]].prio {
      var rest := q[1..];
      assert forall i | 0 <= i < |rest| :: rest[i] == q[i + 1];
      InsertSorted(rest, t, threads);
      var r := Insert(rest, t, threads);
      forall i | 0 <= i < |r| ensures threads[q[0]].prio <= threads[r[i]].prio {
        assert r[i] in rest || r[i] == t;
      }
    }
  }

  /** The newcomer stands behind all that are as urgent and before the first that is less so. */
  lemma {:induction false} InsertPlace(q: seq<Tid>, t: Tid, threads: map<Tid, Thread>, i: nat)
    requires Known(q, threads) && t in threads && i <= |q|
    requires forall j | 0 <= j < i :: threads[q[j]].prio <= threads[t].prio
    requires i < |q| ==> threads[t].prio < threads[q[i]].prio
    ensures Insert(q, t, threads) == q[..i] + [t] + q[i..]
    decreases i
  {
    if i != 0 {
      var rest := q[1..];
      assert forall j | 0 <= j < |rest| :: rest[j] == q[j + 1];
      InsertPlace(rest, t, threads, i - 1);
      assert q[..i] == [q[0]] + rest[..i - 1] && q[i..] == rest[i - 1..];
    }
  }

  lemma {:induction false} InsertFrame(q: seq<Tid>, t: Tid, threads: map<Tid, Thread>, u: Tid, th: Thread)
    requires Known(q, threads) && t in threads && u in threads && th.prio == threads[u].prio
    ensures Known(q, threads[u := th]) && Insert(q, t, threads[u := th]) == Insert(q, t, threads)
    decreases q
  {
    if q != [] {
      assert forall i | 0 <= i < |q[1..]| :: q[1..][i] == q[i + 1];
      InsertFrame(q[1..], t, threads, u, th);
    }
  }

  lemma {:induction false} OmitDistinct(q: seq<Tid>, t: Tid)
    requires Distinct(q)
    ensures Distinct(Omit(q, t))
    decreases q
  {
    if q != [] {
      assert Distinct(q[1..]);
      OmitDistinct(q[1..], t);
      assert q[0] !in q[1..];
    }
  }

  lemma {:induction false} OmitSorted(q: seq<Tid>, t: Tid, threads: map<Tid, Thread>)
    requires Known(q, threads) && SortedBy(q, threads)
    ensures Known(Omit(q, t), threads) && SortedBy(Omit(q, t), threads)
    decreases q
  {
    if q != [] {
      var rest := q[1..];
      assert forall i | 0 <= i < |rest| :: rest[i] == q[i + 1];
      OmitSorted(rest, t, threads);
      var r := Omit(rest, t);
      forall i | 0 <= i < |r| ensures threads[q[0]].prio <= threads[r[i]].prio {
        assert r[i] in rest;
      }
    }
  }

  /** Changing the priority of a pended thread leaves its place in the queue alone: the queue
      stays sorted if and only if the new priority still fits between the neighbours'. */
  lemma {:induction false} RepriorityKeepsOrder(q: seq<Tid>, i: nat, prio: int, threads: map<Tid, Thread>)
    requires Known(q, threads) && Distinct(q) && SortedBy(q, threads) && i < |q|
    ensures
      SortedBy(q, threads[q[i] := threads[q[i]].(prio := prio)]) <==>
        && (i > 0 ==> threads[q[i - 1]].prio <= prio)
        && (i + 1 < |q| ==> prio <= threads[q[i + 1]].prio)
  {
    var after := threads[q[i] := threads[q[i]].(prio := prio)];
    forall j | 0 <= j < |q| ensures after[q[j]].prio == if j == i then prio else threads[q[j]].prio { }
    if (i > 0 ==> threads[q[i - 1]].prio <= prio) && (i + 1 < |q| ==> prio <= threads[q[i + 1]].prio) {
      forall j, k | 0 <= j < k < |q| ensures after[q[j]].prio <= after[q[k]].prio {
        assert j < i ==> j == i - 1 || threads[q[j]].prio <= threads[q[i - 1]].prio;
        assert i < k ==> k == i + 1 || threads[q[i + 1]].prio <= threads[q[k]].prio;
      }
    } else if i > 0 && threads[q[i - 1]].prio > prio {
      assert after[q[i - 1]].prio > after[q[i]].prio;
    } else {
      assert after[q[i]].prio > after[q[i + 1]].prio;
    }
  }

  // ---------------------------------------------------------------- the invariant

  /** QUEUED is set exactly for the members of the run queue, each of which is there once. */
  ghost predicate Linked(threads: map<Tid, Thread>, runq: seq<Tid>) {
    && Distinct(runq)
    && Known(runq, threads)
    && SortedBy(runq, threads)
    && forall t | t in threads :: threads[t].queued <==> t in runq
  }

  /** pended_on names the one wait queue that holds the thread, once.  Wait queues are sorted by
      priority, except for the `shuffled` ones. */
  ghost predicate Waiting(threads: map<Tid, Thread>, waitqs: map<Qid, seq<Tid>>, shuffled: set<Qid>) {
    && (forall q | q in waitqs :: Distinct(waitqs[q]) && Known(waitqs[q], threads))
    && (forall q | q in waitqs && q !in shuffled :: SortedBy(waitqs[q], threads))
    && (forall q, t | q in waitqs && t in waitqs[q] :: threads[t].pendedOn == Some(q))
    && (forall t | t in threads && threads[t].pendedOn.Some? :: Holds(waitqs, threads[t].pendedOn.value, t))
  }

  ghost predicate Holds(waitqs: map<Qid, seq<Tid>>, q: Qid, t: Tid) {
    q in waitqs && t in waitqs[q]
  }

  /** A queued thread is ready, a thread on a wait queue is pending, and a dead one holds nothing. */
  ghost predicate Sane(th: Thread) {
    && (th.queued ==> Ready(th))
    && (th.pendedOn.Some? ==> th.pending)
    && (th.dead ==> th.pendedOn == None && !th.timeout)
  }

  /** Nobody waits for a thread that has ended. */
  ghost predicate JoinsLive(th: Thread, threads: map<Tid, Thread>) {
    th.pendedOn.Some? && th.pendedOn.value.Join? ==>
      th.pendedOn.value.tid in threads && !threads[th.pendedOn.value.tid].dead
  }

  ghost predicate Settled(threads: map<Tid, Thread>, idle: Tid) {
    && idle in threads && !threads[idle].queued && threads[idle].pendedOn == None
    && (forall t | t in threads :: Sane(threads[t]) && JoinsLive(threads[t], threads))
  }

  /** Ready and not queued: between being unmarked by one section and being readied by the next. */
  predicate Adrift(th: Thread) { Ready(th) && !th.queued }

  ghost function Limbo(threads: map<Tid, Thread>, idle: Tid): set<Tid> {
    set t | t in threads && t != idle && Adrift(threads[t])
  }

  /** Each thread is in at most one place: the run queue or one wait queue. */
  lemma {:induction false} SingleResidency(
    threads: map<Tid, Thread>, runq: seq<Tid>, waitqs: map<Qid, seq<Tid>>, shuffled: set<Qid>, idle: Tid)
    requires Linked(threads, runq) && Waiting(threads, waitqs, shuffled) && Settled(threads, idle)
    ensures forall t, q | t in runq && q in waitqs :: t !in waitqs[q]
    ensures forall t, p, q | p in waitqs && q in waitqs && t in waitqs[p] && t in waitqs[q] :: p == q
    ensures forall t | t in threads && threads[t].dead :: t !in runq && forall q | q in waitqs :: t !in waitqs[q]
  {
    forall t, q | t in runq && q in waitqs ensures t !in waitqs[q] {
      assert Sane(threads[t]);
    }
    forall t, q | t in threads && threads[t].dead && q in waitqs ensures t !in runq && t !in waitqs[q] {
      assert Sane(threads[t]);
    }
    forall t | t in threads && threads[t].dead ensures t !in runq {
      assert Sane(threads[t]);
    }
  }

  // ---------------------------------------------------------------- priorities of pended threads

  /** The priority lies between those of the neighbours of t in the queue. */
  predicate Fits(q: seq<Tid>, t: Tid, prio: int, threads: map<Tid, Thread>)
    requires Known(q, threads)
  {
    forall i | 0 <= i < |q| && q[i] == t ::
      (i > 0 ==> threads[q[i - 1]].prio <= prio) && (i + 1 < |q| ==> prio <= threads[q[i + 1]].prio)
  }

  /** The wait queue that a change of priority leaves out of order, if any. */
  function Disturbed(threads: map<Tid, Thread>, waitqs: map<Qid, seq<Tid>>, t: Tid, prio: int): set<Qid>
    requires t in threads
  {
    if threads[t].pendedOn.Some? then
      var q := threads[t].pendedOn.value;
      if q in waitqs && Known(waitqs[q], threads) && !Fits(waitqs[q], t, prio, threads) then {q} else {}
    else {}
  }

  /** A change of priority leaves its thread's place alone: the queue stays sorted if and only if it
      is not disturbed, and every other queue stays as it was. */
  lemma {:induction false} WaitingReprio(
    threads: map<Tid, Thread>, waitqs: map<Qid, seq<Tid>>, shuffled: set<Qid>, t: Tid, prio: int)
    requires Waiting(threads, waitqs, shuffled) && t in threads
    ensures
      var after := threads[t := threads[t].(prio := prio)];
      && Waiting(after, waitqs, shuffled + Disturbed(threads, waitqs, t, prio))
      && (forall q | q in waitqs && q !in shuffled ::
            Known(waitqs[q], after) && (SortedBy(waitqs[q], after) <==> q !in Disturbed(threads, waitqs, t, prio)))
  {
    var after := threads[t := threads[t].(prio := prio)];
    forall u | u in after && after[u].pendedOn.Some? ensures Holds(waitqs, after[u].pendedOn.value, u) {
      assert Holds(waitqs, threads[u].pendedOn.value, u);
    }
    forall q | q in waitqs && q !in shuffled
      ensures Known(waitqs[q], after) && (SortedBy(waitqs[q], after) <==> q !in Disturbed(threads, waitqs, t, prio))
    {
      ReprioQueue(waitqs[q], t, prio, threads);
      if t in waitqs[q] { assert threads[t].pendedOn == Some(q); }
      if threads[t].pendedOn == Some(q) { assert Holds(waitqs, q, t); }
    }
  }

  lemma {:induction false} ReprioQueue(q: seq<Tid>, t: Tid, prio: int, threads: map<Tid, Thread>)
    requires Known(q, threads) && Distinct(q) && SortedBy(q, threads) && t in threads
    ensures
      var after := threads[t := threads[t].(prio := prio)];
      Known(q, after) && (SortedBy(q, after) <==> Fits(q, t, prio, threads))
  {
    if t in q {
      var i :| 0 <= i < |q| && q[i] == t;
      RepriorityKeepsOrder(q, i, prio, threads);
    }
  }

  /** Lowering the first of two waiters below the second leaves them in the wrong order. */
  lemma {:induction false} ShuffleExample(a: Thread, b: Thread)
    requires a.prio == 1 && b.prio == 2
    ensures SortedBy([1, 2], map[1 := a, 2 := b]) && !SortedBy([1, 2], map[1 := a.(prio := 3), 2 := b])
  {
    assert [1, 2][0] == 1 && [1, 2][1] == 2;
  }

  /** k_wakeup() outside its lock: what it unmarked is adrift until it is readied, if and only if
      nothing else holds the thread back. */
  lemma {:induction false} WakeupWindow(threads: map<Tid, Thread>, idle: Tid, t: Tid)
    requires t in threads && t != idle && Sane(threads[t]) && threads[t].suspended
    ensures
      var th := threads[t];
      t in Limbo(threads[t := th.(suspended := false, timeout := false)], idle) <==> !th.pending && !th.prestart && !th.dead
  {
    LimboAfter(threads, idle, t, threads[t].(suspended := false, timeout := false));
  }

  // ---------------------------------------------------------------- one thread changes

  lemma {:induction false} LinkedFrame(threads: map<Tid, Thread>, runq: seq<Tid>, t: Tid, th: Thread)
    requires Linked(threads, runq) && t in threads
    requires th.queued == threads[t].queued && (th.queued ==> th.prio == threads[t].prio)
    ensures Linked(threads[t := th], runq)
  {
  }

  lemma {:induction false} WaitingFrame(
    threads: map<Tid, Thread>, waitqs: map<Qid, seq<Tid>>, shuffled: set<Qid>, t: Tid, th: Thread)
    requires Waiting(threads, waitqs, shuffled) && t in threads
    requires th.pendedOn == threads[t].pendedOn && th.prio == threads[t].prio
    ensures Waiting(threads[t := th], waitqs, shuffled)
  {
    forall u | u in threads && threads[u].pendedOn.Some? ensures Holds(waitqs, threads[u].pendedOn.value, u) { }
  }

  lemma {:induction false} SettledFrame(threads: map<Tid, Thread>, idle: Tid, t: Tid, th: Thread)
    requires Settled(threads, idle) && t in threads && t != idle
    requires Sane(th) && (th.dead == threads[t].dead) && JoinsLive(th, threads)
    ensures Settled(threads[t := th], idle)
  {
    var threads' := threads[t := th];
    forall u | u in threads' ensures JoinsLive(threads'[u], threads') {
      assert u != t ==> JoinsLive(threads[u], threads);
    }
  }

  /** Who is adrift after one thread has changed. */
  lemma {:induction false} LimboAfter(threads: map<Tid, Thread>, idle: Tid, t: Tid, th: Thread)
    requires t in threads && t != idle
    ensures Limbo(threads[t := th], idle) ==
      if Adrift(th) then Limbo(threads, idle) + {t} else Limbo(threads, idle) - {t}
  {
  }

  lemma {:induction false} UnlinkWaiting(threads: map<Tid, Thread>, waitqs: map<Qid, seq<Tid>>, shuffled: set<Qid>, t: Tid)
    requires Waiting(threads, waitqs, shuffled) && t in threads && threads[t].pendedOn.Some?
    ensures threads[t].pendedOn.value in waitqs
    ensures
      var q := threads[t].pendedOn.value;
      Waiting(threads[t := threads[t].(pending := false, pendedOn := None)], waitqs[q := Omit(waitqs[q], t)], shuffled)
  {
    var q := threads[t].pendedOn.value;
    assert Holds(waitqs, q, t);
    OmitDistinct(waitqs[q], t);
    if q !in shuffled { OmitSorted(waitqs[q], t, threads); }
    var th := threads[t := threads[t].(pending := false, pendedOn := None)];
    var wq := waitqs[q := Omit(waitqs[q], t)];
    forall p, u | p in wq && u in wq[p] ensures u in th && th[u].pendedOn == Some(p) {
      assert p in waitqs && u in waitqs[p] && u != t;
    }
    assert forall p | p in wq :: Distinct(wq[p]);
    forall u | u in th && th[u].pendedOn.Some? ensures Holds(wq, th[u].pendedOn.value, u) {
      assert Holds(waitqs, threads[u].pendedOn.value, u);
    }
  }

  function Members(waitqs: map<Qid, seq<Tid>>, q: Qid): seq<Tid> {
    if q in waitqs then waitqs[q] else []
  }

  lemma {:induction false} MembersKnown(threads: map<Tid, Thread>, waitqs: map<Qid, seq<Tid>>, shuffled: set<Qid>, q: Qid)
    requires Waiting(threads, waitqs, shuffled)
    ensures Known(Members(waitqs, q), threads)
  {
  }

  lemma {:induction false} LinkWaiting(
    threads: map<Tid, Thread>, waitqs: map<Qid, seq<Tid>>, shuffled: set<Qid>, t: Tid, q: Qid, th: Thread)
    requires Waiting(threads, waitqs, shuffled) && t in threads && threads[t].pendedOn == None
    requires th.pendedOn == Some(q) && th.prio == threads[t].prio
    ensures Known(Members(waitqs, q), threads)
    ensures Waiting(threads[t := th], waitqs[q := Insert(Members(waitqs, q), t, threads)], shuffled)
  {
    var before := Members(waitqs, q);
    assert t !in before;
    InsertDistinct(before, t, threads);
    if q !in shuffled { InsertSorted(before, t, threads); }
    var threads' := threads[t := th];
    var wq := waitqs[q := Insert(before, t, threads)];
    forall p, u | p in wq && u in wq[p] ensures u in threads' && threads'[u].pendedOn == Some(p) {
      assert u == t || (p in waitqs && u in waitqs[p]);
    }
    assert forall p | p in wq :: Distinct(wq[p]);
    forall u | u in threads' && threads'[u].pendedOn.Some? ensures Holds(wq, threads'[u].pendedOn.value, u) {
      assert u != t ==> Holds(waitqs, threads[u].pendedOn.value, u);
    }
  }

  /** A thread may be marked dead once it is off every queue and nobody waits for it. */
  lemma {:induction false} SettledEnd(threads: map<Tid, Thread>, waitqs: map<Qid, seq<Tid>>, shuffled: set<Qid>, idle: Tid, t: Tid)
    requires Settled(threads, idle) && Waiting(threads, waitqs, shuffled) && t in threads && t != idle
    requires !threads[t].queued && threads[t].pendedOn == None && !threads[t].timeout
    requires Members(waitqs, Join(t)) == []
    ensures Settled(threads[t := threads[t].(dead := true)], idle)
  {
    var threads' := threads[t := threads[t].(dead := true)];
    forall u | u in threads' ensures JoinsLive(threads'[u], threads') {
      if u != t && threads[u].pendedOn.Some? {
        assert JoinsLive(threads[u], threads) && Holds(waitqs, threads[u].pendedOn.value, u);
      }
    }
  }

  lemma {:induction false} RunqSame(threads: map<Tid, Thread>, runq: seq<Tid>)
    requires Linked(threads, runq)
    ensures Known(runq, threads)
  {
  }

  /** A thread's place in the run queue depends on priorities alone. */
  lemma {:induction false} RunqFrame(threads: map<Tid, Thread>, runq: seq<Tid>, mid: map<Tid, Thread>, t: Tid, th: Thread)
    requires Linked(threads, runq) && t in threads && th.prio == threads[t].prio
    requires mid.Keys == threads.Keys && forall u | u in threads :: mid[u].prio == threads[u].prio
    ensures Known(runq, mid) && Known(runq, threads[t := th]) && Insert(runq, t, mid) == Insert(runq, t, threads[t := th])
  {
    hide SortedBy, Distinct;
    assert forall u | u in threads :: u in mid.Keys;
    InsertSame(runq, t, mid, threads[t := th]);
  }

  lemma {:induction false} InsertSame(q: seq<Tid>, t: Tid, m: map<Tid, Thread>, n: map<Tid, Thread>)
    requires Known(q, m) && Known(q, n) && t in m && t in n
    requires forall u | u in m && u in n :: m[u].prio == n[u].prio
    ensures Insert(q, t, m) == Insert(q, t, n)
    decreases q
  {
    if q != [] {
      assert forall i | 0 <= i < |q[1..]| :: q[1..][i] == q[i + 1];
      InsertSame(q[1..], t, m, n);
    }
  }

  lemma {:induction false} WaiterIdle(threads: map<Tid, Thread>, idle: Tid, t: Tid)
    requires Settled(threads, idle) && t in threads && threads[t].pendedOn.Some?
    ensures !threads[t].queued
  {
    assert Sane(threads[t]);
  }

  /** In flags: pending and the timeout are gone, the rest stays, and the thread is queued exactly if
      nothing else holds it. */
  lemma {:induction false} ReleasedFlags(th: Thread)
    ensures var r := Released(th);
      && !r.pending && r.pendedOn == None && !r.timeout
      && r.prio == th.prio && r.prestart == th.prestart && r.suspended == th.suspended && r.dead == th.dead
      && (r.queued <==> !th.prestart && !th.suspended && !th.dead)
  {
  }

  /** What being taken off a wait queue and handed to the scheduler makes of a thread. */
  function Released(th: Thread): Thread {
    var free := th.(pending := false, pendedOn := None, timeout := false);
    free.(queued := Ready(free))
  }

  /** The run queue once the waiters have been released one after the other. */
  function InsertAll(runq: seq<Tid>, ms: seq<Tid>, threads: map<Tid, Thread>): seq<Tid>
    requires Known(runq, threads) && Known(ms, threads)
    decreases ms
  {
    if ms == [] then runq
    else
      assert forall i | 0 <= i < |ms[1..]| :: ms[1..][i] == ms[i + 1];
      var next := if Released(threads[ms[0]]).queued then Insert(runq, ms[0], threads) else runq;
      assert forall i | 0 <= i < |next| :: next[i] in next;
      InsertAll(next, ms[1..], threads)
  }

  /** Released waiters of one priority enter the run queue in the order of the wait queue, behind their
      equals that were there before, and nobody there changes places. */
  lemma {:induction false} ReleasedInOrder(runq: seq<Tid>, ms: seq<Tid>, threads: map<Tid, Thread>, i: nat, j: nat)
    requires Known(runq, threads) && Known(ms, threads) && SortedBy(runq, threads) && i < j < |ms|
    requires Released(threads[ms[i]]).queued && Released(threads[ms[j]]).queued && threads[ms[i]].prio <= threads[ms[j]].prio
    ensures W.Precedes(InsertAll(runq, ms, threads), ms[i], ms[j])
    decreases ms
  {
    hide Released, W.Precedes, Insert, SortedBy;
    var rest := ms[1..];
    assert forall k | 0 <= k < |rest| :: rest[k] == ms[k + 1];
    if Released(threads[ms[0]]).queued { InsertSorted(runq, ms[0], threads); }
    var next := if Released(threads[ms[0]]).queued then Insert(runq, ms[0], threads) else runq;
    assert forall k | 0 <= k < |next| :: next[k] in next;
    if i == 0 { ReleasedBehind(next, rest, threads, ms[0], j - 1); } else { ReleasedInOrder(next, rest, threads, i - 1, j - 1); }
  }

  lemma {:induction false} ReleasedBehind(runq: seq<Tid>, ms: seq<Tid>, threads: map<Tid, Thread>, x: Tid, j: nat)
    requires Known(runq, threads) && Known(ms, threads) && SortedBy(runq, threads) && x in runq && j < |ms|
    requires Released(threads[ms[j]]).queued && threads[x].prio <= threads[ms[j]].prio
    ensures W.Precedes(InsertAll(runq, ms, threads), x, ms[j])
    decreases ms
  {
    hide Released, W.Precedes, Insert, SortedBy;
    var rest := ms[1..];
    assert forall k | 0 <= k < |rest| :: rest[k] == ms[k + 1];
    if Released(threads[ms[0]]).queued {
      InsertSorted(runq, ms[0], threads);
      if j == 0 { InsertBehind(runq, ms[0], threads, x); }
    }
    var next := if Released(threads[ms[0]]).queued then Insert(runq, ms[0], threads) else runq;
    assert forall k | 0 <= k < |next| :: next[k] in next;
    if j == 0 { PlacesKept(next, rest, threads, x, ms[0]); } else { ReleasedBehind(next, rest, threads, x, j - 1); }
  }

  lemma {:induction false} PlacesKept(runq: seq<Tid>, ms: seq<Tid>, threads: map<Tid, Thread>, x: Tid, y: Tid)
    requires Known(runq, threads) && Known(ms, threads) && W.Precedes(runq, x, y)
    ensures W.Precedes(InsertAll(runq, ms, threads), x, y)
    decreases ms
  {
    hide Released, W.Precedes, Insert;
    if ms != [] {
      assert forall k | 0 <= k < |ms[1..]| :: ms[1..][k] == ms[k + 1];
      InsertKeepsPlaces(runq, ms[0], threads, x, y);
      var next := if Released(threads[ms[0]]).queued then Insert(runq, ms[0], threads) else runq;
      assert forall k | 0 <= k < |next| :: next[k] in next;
      PlacesKept(next, ms[1..], threads, x, y);
    }
  }

  lemma {:induction false} InsertIndex(q: seq<Tid>, t: Tid, threads: map<Tid, Thread>) returns (i: nat)
    requires Known(q, threads) && t in threads
    ensures i <= |q| && Insert(q, t, threads) == q[..i] + [t] + q[i..]
    ensures i < |q| ==> threads[t].prio < threads[q[i]].prio
  {
    i := 0;
    while i < |q| && threads[q[i]].prio <= threads[t].prio
      invariant i <= |q| && forall j | 0 <= j < i :: threads[q[j]].prio <= threads[t].prio
    {
      i := i + 1;
    }
    InsertPlace(q, t, threads, i);
  }

  lemma {:induction false} InsertKeepsPlaces(q: seq<Tid>, t: Tid, threads: map<Tid, Thread>, x: Tid, y: Tid)
    requires Known(q, threads) && t in threads && W.Precedes(q, x, y)
    ensures W.Precedes(Insert(q, t, threads), x, y)
  {
    hide Insert;
    var i := InsertIndex(q, t, threads);
    var a, b :| 0 <= a < b < |q| && q[a] == x && q[b] == y;
    var r := Insert(q, t, threads);
    assert r[if a < i then a else a + 1] == x && r[if b < i then b else b + 1] == y;
  }

  lemma {:induction false} InsertBehind(q: seq<Tid>, t: Tid, threads: map<Tid, Thread>, x: Tid)
    requires Known(q, threads) && t in threads && SortedBy(q, threads) && x in q && threads[x].prio <= threads[t].prio
    ensures W.Precedes(Insert(q, t, threads), x, t)
  {
    hide Insert;
    var i := InsertIndex(q, t, threads);
    var a :| 0 <= a < |q| && q[a] == x;
    var r := Insert(q, t, threads);
    assert a < i;
    assert r[a] == x && r[i] == t;
  }

  lemma {:induction false} InsertNone(runq: seq<Tid>, ms: seq<Tid>, threads: map<Tid, Thread>)
    requires Known(runq, threads) && ms == []
    ensures InsertAll(runq, ms, threads) == runq
  {
  }

  lemma {:induction false} NextIn(runq: seq<Tid>, ms: seq<Tid>, threads: map<Tid, Thread>, after: map<Tid, Thread>)
    requires Known(runq, threads) && Known(ms, threads) && ms != [] && after.Keys == threads.Keys
    requires forall t | t in threads :: after[t] == threads[t] || after[t] == Released(threads[t])
    requires after[ms[0]] == Released(threads[ms[0]]) && Known(runq, after)
    ensures
      var next := if after[ms[0]].queued then Insert(runq, ms[0], after) else runq;
      Known(next, threads) && Known(ms[1..], threads) && InsertAll(next, ms[1..], threads) == InsertAll(runq, ms, threads)
  {
    assert forall t | t in threads :: t in after.Keys;
    InsertSame(runq, ms[0], after, threads);
    var next := if after[ms[0]].queued then Insert(runq, ms[0], after) else runq;
    assert forall i | 0 <= i < |next| :: next[i] in next;
    assert forall i | 0 <= i < |ms[1..]| :: ms[1..][i] == ms[i + 1];
  }

  class Scheduler {
    var threads: map<Tid, Thread>
    var runq: seq<Tid>
    var waitqs: map<Qid, seq<Tid>>
    var current: Tid
    const idle: Tid

    ghost var shuffled: set<Qid>

    ghost predicate Valid()
      reads this
    {
      && current in threads
      && Linked(threads, runq)
      && Waiting(threads, waitqs, shuffled)
      && Settled(threads, idle)
    }

    constructor ()
      ensures Valid() && runq == [] && waitqs == map[] && threads.Keys == {idle} == {current}
      ensures Limbo(threads, idle) == {} && shuffled == {}
    {
      idle, current := 0, 0;
      runq, waitqs, shuffled := [], map[], {};
      threads := map[0 := Thread(15, false, false, false, false, false, false, None)];
    }

    // -------------------------------------------------------------- building blocks

    /** queue_thread() */
    method QueueThread(t: Tid)
      requires Linked(threads, runq) && t in threads && t != idle && !threads[t].queued
      modifies this`threads, this`runq
      ensures threads == old(threads)[t := old(threads[t]).(queued := true)]
      ensures runq == Insert(old(runq), t, old(threads))
      ensures Linked(threads, runq)
    {
      InsertDistinct(runq, t, threads);
      InsertSorted(runq, t, threads);
      runq := Insert(runq, t, threads);
      threads := threads[t := threads[t].(queued := true)];
    }

    /** dequeue_thread(): only ever safe on a thread that is linked. */
    method DequeueThread(t: Tid)
      requires Linked(threads, runq) && t in threads && threads[t].queued
      modifies this`threads, this`runq
      ensures threads == old(threads)[t := old(threads[t]).(queued := false)]
      ensures runq == Omit(old(runq), t)
      ensures Linked(threads, runq)
    {
      OmitDistinct(runq, t);
      OmitSorted(runq, t, threads);
      runq := Omit(runq, t);
      threads := threads[t := threads[t].(queued := false)];
    }

    /** ready_thread() */
    method ReadyThread(t: Tid)
      requires Valid() && t in threads && t != idle
      modifies this`threads, this`runq
      ensures Valid()
      ensures threads == old(threads)[t := old(threads[t]).(queued := Ready(old(threads[t])))]
      ensures runq == if old(threads[t]).queued || !Ready(old(threads[t])) then old(runq) else Insert(old(runq), t, old(threads))
    {
      hide Linked, Waiting, Settled, Distinct, Known, SortedBy;
      ThreadSane(t);
      ghost var th := threads[t].(queued := Ready(threads[t]));
      SettledFrame(threads, idle, t, th);
      WaitingFrame(threads, waitqs, shuffled, t, th);
      if !threads[t].queued && Ready(threads[t]) {
        QueueThread(t);
      }
      assert threads == old(threads)[t := th];
    }

    lemma {:induction false} ThreadSane(t: Tid)
      requires Valid() && t in threads
      ensures Sane(threads[t]) && JoinsLive(threads[t], threads)
      ensures t == idle ==> !threads[t].queued && threads[t].pendedOn == None
    {
    }

    lemma {:induction false} InRunq(t: Tid)
      requires Valid() && t in threads
      ensures t in runq <==> threads[t].queued
    {
    }

    /** unpend_thread_no_timeout() */
    method UnpendNoTimeout(t: Tid)
      requires Valid() && t in threads && threads[t].pendedOn.Some?
      modifies this`threads, this`waitqs
      ensures Valid()
      ensures threads == old(threads)[t := old(threads[t]).(pending := false, pendedOn := None)]
      ensures
        var q := old(threads[t]).pendedOn.value;
        q in old(waitqs) && waitqs == old(waitqs)[q := Omit(old(waitqs)[q], t)]
    {
      hide Linked, Waiting, Settled, Distinct, Known, SortedBy;
      ThreadSane(t);
      var th := threads[t].(pending := false, pendedOn := None);
      SettledFrame(threads, idle, t, th);
      LinkedFrame(threads, runq, t, th);
      UnlinkWaiting(threads, waitqs, shuffled, t);
      var q := threads[t].pendedOn.value;
      waitqs := waitqs[q := Omit(waitqs[q], t)];
      threads := threads[t := th];
    }

    /** z_abort_thread_timeout(): reports whether the timeout was linked. */
    method AbortTimeout(t: Tid) returns (linked: bool)
      requires Valid() && t in threads && t != idle
      modifies this`threads
      ensures Valid()
      ensures linked == old(threads[t]).timeout
      ensures threads == old(threads)[t := old(threads[t]).(timeout := false)]
    {
      hide Linked, Waiting, Settled, Distinct, Known, SortedBy;
      ThreadSane(t);
      linked := threads[t].timeout;
      var th := threads[t].(timeout := false);
      SettledFrame(threads, idle, t, th);
      LinkedFrame(threads, runq, t, th);
      WaitingFrame(threads, waitqs, shuffled, t, th);
      threads := threads[t := th];
    }

    /** unready_thread() */
    method UnreadyThread(t: Tid)
      requires Valid() && t in threads && t != idle
      modifies this`threads, this`runq
      ensures Valid()
      ensures threads == old(threads)[t := old(threads[t]).(queued := false)]
      ensures runq == if old(threads[t]).queued then Omit(old(runq), t) else old(runq)
    {
      hide Linked, Waiting, Settled, Distinct, Known, SortedBy;
      ThreadSane(t);
      ghost var th := threads[t].(queued := false);
      SettledFrame(threads, idle, t, th);
      WaitingFrame(threads, waitqs, shuffled, t, th);
      if threads[t].queued { DequeueThread(t); }
      assert threads == old(threads)[t := th];
    }

    /** Writes flags that leave the queues alone. */
    method Mark(t: Tid, th: Thread)
      requires Valid() && t in threads && t != idle
      requires th.queued == threads[t].queued && th.pendedOn == threads[t].pendedOn && th.dead == threads[t].dead
      requires th.prio == threads[t].prio && Sane(th)
      modifies this`threads
      ensures Valid()
      ensures threads == old(threads)[t := th]
    {
      hide Linked, Waiting, Settled, Distinct, Known, SortedBy;
      ThreadSane(t);
      SettledFrame(threads, idle, t, th);
      LinkedFrame(threads, runq, t, th);
      WaitingFrame(threads, waitqs, shuffled, t, th);
      threads := threads[t := th];
    }

    /** add_to_waitq_locked() */
    method AddToWaitq(t: Tid, q: Option<Qid>)
      requires Valid() && t in threads && t != idle && threads[t].pendedOn == None && !threads[t].dead
      requires q.Some? && q.value.Join? ==> q.value.tid in threads && !threads[q.value.tid].dead
      modifies this`threads, this`runq, this`waitqs
      ensures Valid()
      ensures threads == old(threads)[t := old(threads[t]).(queued := false, pending := true, pendedOn := q)]
      ensures runq == if old(threads[t]).queued then Omit(old(runq), t) else old(runq)
      ensures q == None ==> waitqs == old(waitqs)
      ensures q.Some? ==>
        && Known(Members(old(waitqs), q.value), old(threads))
        && waitqs == old(waitqs)[q.value := Insert(Members(old(waitqs), q.value), t, old(threads))]
    {
      hide Linked, Waiting, Settled, Distinct, SortedBy, Insert, Omit, Known;
      UnreadyThread(t);
      ThreadSane(t);
      var th := threads[t].(pending := true, pendedOn := q);
      SettledFrame(threads, idle, t, th);
      LinkedFrame(threads, runq, t, th);
      if q.Some? {
        MembersKnown(old(threads), old(waitqs), shuffled, q.value);
        LinkWaiting(threads, waitqs, shuffled, t, q.value, th);
        InsertFrame(Members(waitqs, q.value), t, old(threads), t, old(threads[t]).(queued := false));
        waitqs := waitqs[q.value := Insert(Members(waitqs, q.value), t, threads)];
      } else {
        WaitingFrame(threads, waitqs, shuffled, t, th);
      }
      threads := threads[t := th];
      assert threads == old(threads)[t := old(threads[t]).(queued := false, pending := true, pendedOn := q)];
    }

    // -------------------------------------------------------------- pending and waking

    /** Only the running thread pends itself, yields, sleeps or joins, and it is ready and queued when
        it does: it stays in the run queue while it runs. */
    ghost predicate Running()
      reads this
    {
      current in threads && current != idle && threads[current].queued
    }

    /** pend_locked() on the current thread, for z_pend_curr() and z_pend_thread(); `timed` is
        false for K_FOREVER. */
    method PendCurrent(q: Option<Qid>, timed: bool)
      requires Valid() && Running()
      requires q.Some? && q.value.Join? ==> q.value.tid in threads && !threads[q.value.tid].dead
      modifies this`threads, this`runq, this`waitqs
      ensures Valid()
      ensures threads == old(threads)[current :=
        old(threads[current]).(queued := false, pending := true, pendedOn := q, timeout := timed)]
      ensures runq == Omit(old(runq), current)
      ensures q == None ==> waitqs == old(waitqs)
      ensures q.Some? ==>
        && Known(Members(old(waitqs), q.value), old(threads))
        && waitqs == old(waitqs)[q.value := Insert(Members(old(waitqs), q.value), current, old(threads))]
    {
      hide Linked, Waiting, Settled, Distinct, SortedBy, Insert, Omit, Known;
      ThreadSane(current);
      AddToWaitq(current, q);
      if timed {
        ThreadSane(current);
        Mark(current, threads[current].(timeout := true));
      }
      assert threads == old(threads)[current :=
        old(threads[current]).(queued := false, pending := true, pendedOn := q, timeout := timed)];
    }

    /** z_unpend_first_thread(): the thread is now the caller's to make ready. */
    method UnpendFirst(q: Qid) returns (r: Option<Tid>)
      requires Valid()
      modifies this`threads, this`waitqs
      ensures r == if Members(old(waitqs), q) == [] then None else Some(Members(old(waitqs), q)[0])
      ensures r == None ==> threads == old(threads) && waitqs == old(waitqs) && Valid()
      ensures r.Some? ==>
        && Valid() && r.value in old(threads) && r.value != idle
        && q in old(waitqs) && r.value in old(waitqs)[q] && old(threads[r.value]).pendedOn == Some(q)
        && threads == old(threads)[r.value :=
             old(threads[r.value]).(pending := false, pendedOn := None, timeout := false)]
        && waitqs == old(waitqs)[q := Omit(old(waitqs)[q], r.value)]
    {
      hide Linked, Waiting, Settled, Distinct, SortedBy, Insert, Omit, Known;
      if q !in waitqs || waitqs[q] == [] { return None; }
      var t := waitqs[q][0];
      WaiterPended(q, 0);
      UnpendNoTimeout(t);
      var _ := AbortTimeout(t);
      r := Some(t);
    }

    /** z_unpend1_no_timeout(), which k_timer_stop() follows with z_ready_thread() in a section of its own. */
    method UnpendOne(q: Qid) returns (r: Option<Tid>)
      requires Valid()
      modifies this`threads, this`waitqs
      ensures Valid()
      ensures r == if Members(old(waitqs), q) == [] then None else Some(Members(old(waitqs), q)[0])
      ensures r == None ==> threads == old(threads) && waitqs == old(waitqs)
      ensures r.Some? ==>
        && r.value in old(threads) && r.value != idle && q in old(waitqs)
        && threads == old(threads)[r.value := old(threads[r.value]).(pending := false, pendedOn := None)]
        && waitqs == old(waitqs)[q := Omit(old(waitqs)[q], r.value)]
    {
      hide Linked, Waiting, Settled, Distinct, SortedBy, Insert, Omit, Known;
      if q !in waitqs || waitqs[q] == [] { return None; }
      var t := waitqs[q][0];
      WaiterPended(q, 0);
      UnpendNoTimeout(t);
      r := Some(t);
    }

    lemma {:induction false} WaiterPended(q: Qid, i: nat)
      requires Valid() && q in waitqs && i < |waitqs[q]|
      ensures var t := waitqs[q][i]; t in threads && t != idle && threads[t].pendedOn == Some(q)
    {
    }

    /** Taking off the head leaves the rest of the queue. */
    lemma {:induction false} HeadOff(q: Qid)
      requires Valid() && Members(waitqs, q) != []
      ensures q in waitqs && Omit(waitqs[q], waitqs[q][0]) == waitqs[q][1..] && waitqs[q][0] in threads
    {
      OmitPlace(waitqs[q], waitqs[q][0], 0);
      assert waitqs[q][..0] + waitqs[q][1..] == waitqs[q][1..];
    }

    lemma {:induction false} NotWaiting(t: Tid, q: Qid)
      requires Valid() && t in threads && threads[t].pendedOn != Some(q)
      ensures t !in Members(waitqs, q)
    {
    }

    /** z_unpend_first_thread() followed by z_ready_thread(), as every kernel object does. */
    method WakeFirst(q: Qid) returns (r: Option<Tid>)
      requires Valid()
      modifies this`threads, this`runq, this`waitqs
      ensures Valid()
      ensures r == if Members(old(waitqs), q) == [] then None else Some(Members(old(waitqs), q)[0])
      ensures r == None ==> threads == old(threads) && waitqs == old(waitqs) && runq == old(runq)
      ensures r.Some? ==>
        && r.value in old(threads) && r.value != idle && q in old(waitqs)
        && threads == old(threads)[r.value := Released(old(threads[r.value]))]
        && waitqs == old(waitqs)[q := Omit(old(waitqs)[q], r.value)]
        && !old(threads[r.value]).queued && Known(old(runq), threads)
        && runq == if threads[r.value].queued then Insert(old(runq), r.value, threads) else old(runq)
    {
      hide Linked, Waiting, Settled, Distinct, SortedBy, Insert, Omit, Known;
      r := UnpendFirst(q);
      if r.Some? {
        ThreadSane(r.value);
        WaiterIdle(old(threads), idle, r.value);
        ghost var before := threads;
        ReadyThread(r.value);
        RunqFrame(old(threads), old(runq), before, r.value, threads[r.value]);
        assert threads == old(threads)[r.value := Released(old(threads[r.value]))];
      }
    }

    /** z_unpend_all(), and unpend_all() on a join queue. */
    method UnpendAll(q: Qid)
      requires Valid()
      modifies this`threads, this`runq, this`waitqs
      ensures Valid() && Members(waitqs, q) == []
      ensures forall p | p != q :: Members(waitqs, p) == Members(old(waitqs), p)
      ensures threads.Keys == old(threads).Keys
      ensures forall t | t in threads ::
        threads[t] == if t in Members(old(waitqs), q) then Released(old(threads[t])) else old(threads[t])
      ensures Known(old(runq), old(threads)) && Known(Members(old(waitqs), q), old(threads))
      ensures runq == InsertAll(old(runq), Members(old(waitqs), q), old(threads))
    {
      hide Linked, Waiting, Settled, Distinct, SortedBy, Insert, Known, Sane, Released, InsertAll;
      RunqSame(threads, runq);
      MembersKnown(threads, waitqs, shuffled, q);
      while Members(waitqs, q) != []
        invariant Valid()
        invariant Known(runq, old(threads)) && Known(Members(waitqs, q), old(threads))
        invariant InsertAll(runq, Members(waitqs, q), old(threads)) == InsertAll(old(runq), Members(old(waitqs), q), old(threads))
        invariant forall p | p != q :: Members(waitqs, p) == Members(old(waitqs), p)
        invariant threads.Keys == old(threads).Keys
        invariant forall t | t in Members(waitqs, q) :: t in Members(old(waitqs), q)
        invariant forall t | t in threads ::
          threads[t] == if t in Members(old(waitqs), q) && t !in Members(waitqs, q)
                        then Released(old(threads[t])) else old(threads[t])
        decreases |Members(waitqs, q)|
      {
        ghost var ms, before := Members(waitqs, q), runq;
        HeadOff(q);
        assert ms[0] in ms && threads[ms[0]] == old(threads[ms[0]]);
        var r := WakeFirst(q);
        NextIn(before, ms, old(threads), threads);
      }
      InsertNone(runq, Members(waitqs, q), old(threads));
    }

    /** z_sched_wake_thread() */
    method WakeThread(t: Tid, isTimeout: bool)
      requires Valid() && t in threads && t != idle
      modifies this`threads, this`runq, this`waitqs
      ensures Valid()
      ensures threads == old(threads)[t := Woken(old(threads[t]), isTimeout)]
      ensures
        var was, now := old(threads[t]), threads[t];
        if was.dead then now == was
        else
          && !now.prestart && now.pendedOn == None && (now.pending <==> was.pending && was.pendedOn == None)
          && (now.suspended <==> was.suspended && !isTimeout)
          && now.timeout == was.timeout && now.prio == was.prio && !now.dead
          && (now.queued <==> !now.suspended && !now.timeout && !now.pending)
      ensures Known(old(runq), threads) &&
        runq == if threads[t].queued && !old(threads[t]).queued then Insert(old(runq), t, threads) else old(runq)
      ensures forall q ::
        Members(waitqs, q) ==
        if !old(threads[t]).dead && old(threads[t]).pendedOn == Some(q) then Omit(Members(old(waitqs), q), t)
        else Members(old(waitqs), q)
    {
      hide Linked, Waiting, Settled, Distinct, SortedBy, Insert, Omit, Known;
      ThreadSane(t);
      if threads[t].dead {
        RunqSame(threads, runq);
        assert threads == old(threads)[t := Woken(old(threads[t]), isTimeout)];
        return;
      }
      if threads[t].pendedOn.Some? { UnpendNoTimeout(t); }
      ThreadSane(t);
      Mark(t, threads[t].(prestart := false, suspended := threads[t].suspended && !isTimeout));
      ghost var before := threads;
      ReadyThread(t);
      RunqFrame(old(threads), old(runq), before, t, threads[t]);
      assert threads == old(threads)[t := Woken(old(threads[t]), isTimeout)];
    }

    /** The thread's timeout is due: it is unlinked and z_thread_timeout() runs. */
    method Expire(t: Tid)
      requires Valid() && t in threads && t != idle && threads[t].timeout
      modifies this`threads, this`runq, this`waitqs
      ensures Valid()
      ensures threads == old(threads)[t := Woken(old(threads[t]).(timeout := false), true)]
      ensures !old(threads[t]).dead && !threads[t].timeout && !threads[t].suspended && !threads[t].prestart
      ensures threads[t].pendedOn == None && (threads[t].pending <==> old(threads[t]).pending && old(threads[t]).pendedOn == None)
      ensures threads[t].queued <==> !threads[t].pending
      ensures Known(old(runq), threads) && runq == if threads[t].queued then Insert(old(runq), t, threads) else old(runq)
    {
      hide Linked, Waiting, Settled, Distinct, SortedBy, Insert, Omit, Known;
      ThreadSane(t);
      var _ := AbortTimeout(t);
      WakeThread(t, true);
    }

    // -------------------------------------------------------------- suspending and sleeping

    /** The locked section of k_thread_suspend(). */
    method SuspendLocked(t: Tid)
      requires Valid() && t in threads && t != idle
      modifies this`threads, this`runq
      ensures Valid()
      ensures threads == old(threads)[t := old(threads[t]).(queued := false, suspended := true)]
      ensures runq == if old(threads[t]).queued then Omit(old(runq), t) else old(runq)
    {
      hide Linked, Waiting, Settled, Distinct, SortedBy, Insert, Omit, Known;
      UnreadyThread(t);
      ThreadSane(t);
      Mark(t, threads[t].(suspended := true));
      assert threads == old(threads)[t := old(threads[t]).(queued := false, suspended := true)];
    }

    /** k_thread_suspend(), nothing coming between its two sections. */
    method Suspend(t: Tid)
      requires Valid() && t in threads && t != idle
      modifies this`threads, this`runq
      ensures Valid()
      ensures threads == old(threads)[t := old(threads[t]).(queued := false, suspended := true, timeout := false)]
      ensures runq == if old(threads[t]).queued then Omit(old(runq), t) else old(runq)
    {
      hide Linked, Waiting, Settled, Distinct, SortedBy, Insert, Omit, Known;
      var _ := AbortTimeout(t);
      SuspendLocked(t);
      assert threads == old(threads)[t := old(threads[t]).(queued := false, suspended := true, timeout := false)];
    }

    /** k_thread_resume() */
    method Resume(t: Tid)
      requires Valid() && t in threads && t != idle
      modifies this`threads, this`runq
      ensures Valid()
      ensures
        var free := old(threads[t]).(suspended := false);
        threads == old(threads)[t := if old(threads[t]).suspended then free.(queued := Ready(free)) else free]
      ensures Known(old(runq), threads) &&
        runq == if threads[t].queued && !old(threads[t]).queued then Insert(old(runq), t, threads) else old(runq)
    {
      hide Linked, Waiting, Settled, Distinct, SortedBy, Insert, Omit, Known;
      ThreadSane(t);
      ghost var free := threads[t].(suspended := false);
      RunqSame(threads, runq);
      if threads[t].suspended {
        Unsuspend(t);
        ghost var before := threads;
        ReadyThread(t);
        RunqFrame(old(threads), old(runq), before, t, threads[t]);
      }
      assert threads == old(threads)[t := if old(threads[t]).suspended then free.(queued := Ready(free)) else free];
    }

    /** z_mark_thread_as_not_suspended(), which k_wakeup() does outside any lock. */
    method Unsuspend(t: Tid)
      requires Valid() && t in threads && t != idle
      modifies this`threads
      ensures Valid() && threads == old(threads)[t := old(threads[t]).(suspended := false)]
    {
      hide Linked, Waiting, Settled, Distinct, SortedBy, Insert, Omit, Known;
      ThreadSane(t);
      Mark(t, threads[t].(suspended := false));
    }

    /** z_tick_sleep() for a positive number of ticks. */
    method Sleep()
      requires Valid() && Running()
      modifies this`threads, this`runq
      ensures Valid()
      ensures threads == old(threads)[current := old(threads[current]).(queued := false, suspended := true, timeout := true)]
      ensures runq == Omit(old(runq), current)
    {
      hide Linked, Waiting, Settled, Distinct, SortedBy, Insert, Omit, Known;
      ThreadSane(current);
      UnreadyThread(current);
      ThreadSane(current);
      Mark(current, threads[current].(timeout := true, suspended := true));
      assert threads == old(threads)[current := old(threads[current]).(queued := false, suspended := true, timeout := true)];
    }

    /** k_wakeup(), nothing coming between its sections: nothing happens to a pending thread, nor to
        one that has no timeout and is anything but plainly suspended. */
    method Wakeup(t: Tid)
      requires Valid() && t in threads && t != idle
      modifies this`threads, this`runq
      ensures Valid()
      ensures
        var th := old(threads[t]);
        var free := th.(suspended := false, timeout := false);
        var acts := !th.pending && (th.timeout || (th.suspended && !th.prestart && !th.dead));
        threads == old(threads)[t := if acts then free.(queued := Ready(free)) else th]
      ensures Known(old(runq), threads) &&
        runq == if threads[t].queued && !old(threads[t]).queued then Insert(old(runq), t, threads) else old(runq)
    {
      hide Linked, Waiting, Settled, Distinct, SortedBy, Insert, Omit, Known;
      ThreadSane(t);
      RunqSame(threads, runq);
      ghost var th := threads[t];
      ghost var free := th.(suspended := false, timeout := false);
      if threads[t].pending {
        assert threads == old(threads)[t := th];
        return;
      }
      var linked := AbortTimeout(t);
      RunqSame(threads, runq);
      var s := threads[t];
      if !linked && !(s.suspended && !s.pending && !s.prestart && !s.dead && !s.queued) {
        assert threads == old(threads)[t := th] == old(threads);
        return;
      }
      Unsuspend(t);
      ghost var before := threads;
      ReadyThread(t);
      RunqFrame(old(threads), old(runq), before, t, threads[t]);
      assert threads == old(threads)[t := free.(queued := Ready(free))];
    }

    // -------------------------------------------------------------- priorities

    /** z_set_prio().  On one processor the dequeue of a ready thread is unconditional: it finds the
        thread linked if and only if the thread is not between two sections of a waker.  In that case
        the code unlinks a node that is in no list, and the model goes no further. */
    method SetPrio(t: Tid, prio: int) returns (r: PrioResult)
      requires Valid() && t in threads && t != idle
      modifies this`threads, this`runq, this`shuffled
      ensures Valid()
      ensures r == Unlinked <==> t in Limbo(old(threads), idle)
      ensures r == Unlinked ==> threads == old(threads) && runq == old(runq) && shuffled == old(shuffled)
      ensures r.Changed? ==>
        && r.needSched == Ready(old(threads[t]))
        && threads == old(threads)[t := old(threads[t]).(prio := prio)]
        && shuffled == old(shuffled) + Disturbed(old(threads), waitqs, t, prio)
        && (r.needSched ==> Known(Omit(old(runq), t), threads) && runq == Insert(Omit(old(runq), t), t, threads))
        && (!r.needSched ==> runq == old(runq))
    {
      hide Waiting, Settled, Distinct, SortedBy, Insert, Omit, Disturbed;
      ThreadSane(t);
      var ready := Ready(threads[t]);
      var th := threads[t].(prio := prio);
      if ready && !threads[t].queued { return Unlinked; }
      SettledFrame(threads, idle, t, th);
      WaitingReprio(threads, waitqs, shuffled, t, prio);
      shuffled := shuffled + Disturbed(threads, waitqs, t, prio);
      if ready {
        DequeueThread(t);
        LinkedFrame(threads, runq, t, threads[t].(prio := prio));
        threads := threads[t := threads[t].(prio := prio)];
        InsertFrame(runq, t, threads, t, th);
        QueueThread(t);
      } else {
        LinkedFrame(threads, runq, t, th);
        threads := threads[t := th];
      }
      assert threads == old(threads)[t := th];
      r := Changed(ready);
    }

    /** k_yield(): behind every other thread of the same priority. */
    method Yield()
      requires Valid() && Running()
      modifies this`threads, this`runq
      ensures Valid() && threads == old(threads)
      ensures Known(Omit(old(runq), current), threads)
      ensures runq == Insert(Omit(old(runq), current), current, threads)
    {
      hide Waiting, Settled, Distinct, SortedBy, Insert, Omit;
      ThreadSane(current);
      DequeueThread(current);
      InsertFrame(runq, current, threads, current, threads[current].(queued := true));
      QueueThread(current);
      assert threads == old(threads);
    }

    // -------------------------------------------------------------- the life of a thread

    /** k_thread_create() on a fresh thread object; the thread is not started yet.  `delayed` links
        the timeout that will start it. */
    method Create(t: Tid, prio: int, delayed: bool)
      requires Valid() && t !in threads
      modifies this`threads
      ensures Valid()
      ensures threads == old(threads)[t := Thread(prio, false, false, true, false, false, delayed, None)]
    {
      threads := threads[t := Thread(prio, false, false, true, false, false, delayed, None)];
      NewThread(old(threads), runq, waitqs, shuffled, idle, t, threads[t]);
    }

    /** z_sched_start() */
    method Start(t: Tid)
      requires Valid() && t in threads && t != idle
      modifies this`threads, this`runq
      ensures Valid()
      ensures
        var started := old(threads[t]).(prestart := false);
        threads == old(threads)[t := if old(threads[t]).prestart then started.(queued := Ready(started)) else started]
      ensures Known(old(runq), threads) &&
        runq == if threads[t].queued && !old(threads[t]).queued then Insert(old(runq), t, threads) else old(runq)
    {
      hide Linked, Waiting, Settled, Distinct, SortedBy, Insert, Omit, Known;
      ThreadSane(t);
      ghost var started := threads[t].(prestart := false);
      RunqSame(threads, runq);
      if threads[t].prestart {
        Mark(t, threads[t].(prestart := false));
        ghost var before := threads;
        ReadyThread(t);
        RunqFrame(old(threads), old(runq), before, t, threads[t]);
      }
      assert threads == old(threads)[t := if old(threads[t]).prestart then started.(queued := Ready(started)) else started];
    }

    /** z_thread_abort() on one processor, hence end_thread().  The flag is written last here; the
        section is atomic. */
    method Abort(t: Tid)
      requires Valid() && t in threads && t != idle
      modifies this`threads, this`runq, this`waitqs
      ensures Valid()
      ensures threads.Keys == old(threads).Keys && threads[t].dead
      ensures t !in runq && (forall q | q in waitqs :: t !in waitqs[q]) && Members(waitqs, Join(t)) == []
      ensures old(threads[t]).dead ==> threads == old(threads) && runq == old(runq) && waitqs == old(waitqs)
      ensures !old(threads[t]).dead ==> forall u | u in threads && u != t ::
        threads[u] == if u in Members(old(waitqs), Join(t)) then Released(old(threads[u])) else old(threads[u])
    {
      if !threads[t].dead { EndThread(t); }
      DeadUnlinked(t);
    }

    lemma {:induction false} DeadUnlinked(t: Tid)
      requires Valid() && t in threads && threads[t].dead
      ensures t !in runq && (forall q | q in waitqs :: t !in waitqs[q]) && Members(waitqs, Join(t)) == []
    {
      assert Sane(threads[t]);
      var q := Members(waitqs, Join(t));
      if q != [] {
        WaiterPended(Join(t), 0);
        ThreadSane(q[0]);
        assert false;
      }
    }

    /** The first half of end_thread(): off the run queue, off its wait queue, timeout unlinked. */
    method Detach(t: Tid)
      requires Valid() && t in threads && t != idle
      modifies this`threads, this`runq, this`waitqs
      ensures Valid()
      ensures threads.Keys == old(threads).Keys && forall u | u in threads && u != t :: threads[u] == old(threads[u])
      ensures !threads[t].queued && threads[t].pendedOn == None && !threads[t].timeout
      ensures forall u | u != t :: u in Members(waitqs, Join(t)) <==> u in Members(old(waitqs), Join(t))
    {
      hide Linked, Waiting, Settled, Distinct, SortedBy, Insert, Known, Omit;
      UnreadyThread(t);
      if threads[t].pendedOn.Some? { UnpendNoTimeout(t); }
      var _ := AbortTimeout(t);
    }

    /** end_thread() */
    method EndThread(t: Tid)
      requires Valid() && t in threads && t != idle && !threads[t].dead
      modifies this`threads, this`runq, this`waitqs
      ensures Valid()
      ensures threads.Keys == old(threads).Keys && threads[t].dead
      ensures forall u | u in threads && u != t ::
        threads[u] == if u in Members(old(waitqs), Join(t)) then Released(old(threads[u])) else old(threads[u])
    {
      hide Linked, Waiting, Settled, Distinct, SortedBy, Insert, Known, Omit, Released;
      Detach(t);
      NotWaiting(t, Join(t));
      UnpendAll(Join(t));
      SettledEnd(threads, waitqs, shuffled, idle, t);
      LinkedFrame(threads, runq, t, threads[t].(dead := true));
      WaitingFrame(threads, waitqs, shuffled, t, threads[t].(dead := true));
      threads := threads[t := threads[t].(dead := true)];
    }

    /** k_thread_join() by the current thread. */
    method JoinThread(t: Tid, noWait: bool, timed: bool) returns (code: JoinCode)
      requires Valid() && Running() && t in threads
      modifies this`threads, this`runq, this`waitqs
      ensures Valid()
      ensures code == if old(threads[t]).dead then Joined else if noWait then Busy
                      else if t == current || old(threads[t]).pendedOn == Some(Join(current)) then Deadlock else Blocked
      ensures code == Blocked ==> current in Members(waitqs, Join(t)) && threads == old(threads)[current :=
          old(threads[current]).(queued := false, pending := true, pendedOn := Some(Join(t)), timeout := timed)]
      ensures code != Blocked ==> threads == old(threads) && runq == old(runq) && waitqs == old(waitqs)
    {
      hide Linked, Waiting, Settled, Distinct, SortedBy, Omit, Known;
      if threads[t].dead { return Joined; }
      if noWait { return Busy; }
      if t == current || threads[t].pendedOn == Some(Join(current)) { return Deadlock; }
      PendCurrent(Some(Join(t)), timed);
      code := Blocked;
    }

    // -------------------------------------------------------------- whole runs

    /** What the callers of each operation see to. */
    predicate Enabled(s: Step)
      reads this
    {
      match s
      case Create(t, _, _) => t !in threads
      case Pend(q, _) => q.Some? && q.value.Join? ==> q.value.tid in threads && !threads[q.value.tid].dead
      case Wake(_) => true
      case WakeAll(_) => true
      case Sleep => true
      case Yield => true
      case JoinOn(t, _, _) => t in threads
      case Expire(t) => t in threads && t != idle && threads[t].timeout
      case Switch(t) => t in runq || t == idle
      case Start(t) => t in threads && t != idle
      case Suspend(t) => t in threads && t != idle
      case Resume(t) => t in threads && t != idle
      case Wakeup(t) => t in threads && t != idle
      case StopTimeout(t) => t in threads && t != idle
      case Unsuspend(t) => t in threads && t != idle
      case UnpendOne(_) => true
      case ReadyUp(t) => t in threads && t != idle
      case SuspendLocked(t) => t in threads && t != idle
      case SetPrio(t, _) => t in threads && t != idle
      case Abort(t) => t in threads && t != idle
    }

    ghost function View(): Snapshot
      reads this
    {
      Snapshot(threads, waitqs, runq, current)
    }

    method Reprioritise(t: Tid, prio: int) returns (ok: bool)
      requires Valid() && t in threads && t != idle
      modifies this`threads, this`runq, this`shuffled
      ensures Valid() && Onward(old(threads), threads)
      ensures ok <==> t !in Limbo(old(threads), idle)
      ensures !ok ==> threads == old(threads) && runq == old(runq)
      ensures Limbo(threads, idle) <= Limbo(old(threads), idle)
      ensures shuffled == old(shuffled) + if ok then Disturbed(old(threads), waitqs, t, prio) else {}
      ensures ok ==> threads == old(threads)[t := old(threads[t]).(prio := prio)]
    {
      hide Linked, Waiting, Settled, Distinct, SortedBy, Insert, Omit, Known, Limbo, Disturbed;
      var r := SetPrio(t, prio);
      ok := r.Changed?;
      OneOn(old(threads), idle, t, old(threads[t]).(prio := prio));
    }

    /** The sections of wakers, one by one. */
    method PerformSection(s: Step)
      requires Valid() && Enabled(s)
      requires s.StopTimeout? || s.Unsuspend? || s.UnpendOne? || s.ReadyUp? || s.SuspendLocked?
      modifies this`threads, this`runq, this`waitqs
      ensures Valid() && Onward(old(threads), threads)
      ensures Split(s) || Limbo(threads, idle) <= Limbo(old(threads), idle)
      ensures Took(s, old(View()), View(), idle)
    {
      hide Linked, Waiting, Settled, Distinct, SortedBy, Insert, Omit, Known, Members, Limbo;
      match s {
        case StopTimeout(t) => var _ := AbortTimeout(t);
        case Unsuspend(t) => Unsuspend(t);
        case UnpendOne(q) => var _ := UnpendOne(q);
        case ReadyUp(t) =>
          ReadyThread(t);
          OneOn(old(threads), idle, t, threads[t]);
        case SuspendLocked(t) =>
          SuspendLocked(t);
          OneOn(old(threads), idle, t, threads[t]);
      }
    }

    /** The steps that change one given thread. */
    method PerformOn(s: Step)
      requires Valid() && Enabled(s)
      requires s.Create? || s.Start? || s.Suspend? || s.Resume? || s.Wakeup? || s.Expire?
      modifies this`threads, this`runq, this`waitqs
      ensures Valid() && Onward(old(threads), threads)
      ensures Limbo(threads, idle) <= Limbo(old(threads), idle)
      ensures Took(s, old(View()), View(), idle)
    {
      hide Linked, Waiting, Settled, Distinct, SortedBy, Insert, Omit, Known, Members, Limbo;
      match s {
        case Create(t, prio, delayed) =>
          Create(t, prio, delayed);
          NewOn(old(threads), idle, t, threads[t]);
          return;
        case Start(t) => ThreadSane(t); Start(t);
        case Suspend(t) => Suspend(t);
        case Resume(t) => ThreadSane(t); Resume(t);
        case Wakeup(t) => Wakeup(t);
        case Expire(t) => Expire(t);
      }
      OneOn(old(threads), idle, s.t, threads[s.t]);
    }

    /** The steps of the running thread, of wait queues and of the end of a thread. */
    method PerformQueue(s: Step)
      requires Valid() && Enabled(s)
      requires s.Pend? || s.Wake? || s.WakeAll? || s.Sleep? || s.Yield? || s.JoinOn? || s.Switch? || s.Abort?
      modifies this`threads, this`runq, this`waitqs, this`current
      ensures Valid() && Onward(old(threads), threads)
      ensures Limbo(threads, idle) <= Limbo(old(threads), idle)
      ensures Took(s, old(View()), View(), idle)
    {
      hide Linked, Waiting, Settled, Distinct, SortedBy, Insert, Omit, Known, Members, Limbo;
      var running := current != idle && threads[current].queued;
      match s {
        case Pend(q, timed) => if running { PendCurrent(q, timed); OneOn(old(threads), idle, current, threads[current]); }
        case Wake(q) =>
          var r := WakeFirst(q);
          if r.Some? { OneOn(old(threads), idle, r.value, threads[r.value]); }
        case WakeAll(q) => UnpendAll(q); ManyOn(old(threads), idle, threads);
        case Sleep => if running { Sleep(); OneOn(old(threads), idle, current, threads[current]); }
        case Yield => if running { Yield(); }
        case JoinOn(t, noWait, timed) =>
          if running {
            var code := JoinThread(t, noWait, timed);
            if code == Blocked { OneOn(old(threads), idle, current, threads[current]); }
          }
        case Switch(t) => SwitchTo(t);
        case Abort(t) =>
          Abort(t);
          AbortOn(old(threads), idle, threads, t);
      }
    }

    lemma {:induction false} NotTaken(s: Step)
      requires Valid() && !Enabled(s) && !s.SetPrio?
      ensures Took(s, View(), View(), idle)
    {
      hide Linked, Waiting, Settled, Members;
    }

    /** One step of a run; a step that no caller could take does nothing.  Only a change of priority can
        go wrong, and only on a thread that is adrift; only the sections of a waker set one adrift. */
    method Perform(s: Step) returns (ok: bool)
      requires Valid()
      modifies this
      ensures Valid()
      ensures Onward(old(threads), threads)
      ensures ok <==> !(s.SetPrio? && s.t in Limbo(old(threads), idle))
      ensures !ok ==> View() == old(View()) && shuffled == old(shuffled)
      ensures Split(s) || Limbo(threads, idle) <= Limbo(old(threads), idle)
      ensures shuffled == old(shuffled) + Misplaced(s, old(threads), old(waitqs), idle)
      ensures Took(s, old(View()), View(), idle)
    {
      hide Linked, Waiting, Settled, Distinct, SortedBy, Insert, Omit, Known, Members, Limbo, Disturbed, Onward;
      ok := true;
      OnwardSelf(threads);
      if s.SetPrio? {
        InLimbo(threads, idle, s.t);
        if Enabled(s) { ok := Reprioritise(s.t, s.prio); }
      } else if !Enabled(s) {
        NotTaken(s);
        return;
      } else if s.StopTimeout? || s.Unsuspend? || s.UnpendOne? || s.ReadyUp? || s.SuspendLocked? {
        PerformSection(s);
      } else if s.Create? || s.Start? || s.Suspend? || s.Resume? || s.Wakeup? || s.Expire? {
        PerformOn(s);
      } else {
        PerformQueue(s);
      }
    }

    /** Any run, up to the first change of priority that meets a thread adrift; `trace` holds the state
        before the first step and after each.  If no section of a waker is left open, every ready thread
        is queued and nothing goes wrong.  While priority changes fit between the neighbours, wait
        queues stay sorted. */
    method Run(steps: seq<Step>) returns (done: nat, ghost trace: seq<Snapshot>)
      requires Valid()
      modifies this
      ensures Valid() && Onward(old(threads), threads)
      ensures done <= |steps| && (done < |steps| ==> steps[done].SetPrio? && steps[done].t in Limbo(threads, idle))
      ensures Limbo(old(threads), idle) == {} && (forall s | s in steps :: !Split(s)) ==>
        done == |steps| && Limbo(threads, idle) == {}
      ensures Limbo(old(threads), idle) == {} && (forall s | s in steps :: !Split(s)) ==>
        forall t | t in threads && t != idle ::
          t in runq <==> !threads[t].pending && !threads[t].prestart && !threads[t].dead && !threads[t].suspended && !threads[t].timeout
      ensures |trace| == done + 1 && trace[0] == old(View()) && trace[done] == View()
      ensures (forall k | 0 <= k < done :: Misplaced(steps[k], trace[k].threads, trace[k].waitqs, idle) == {}) ==>
        shuffled == old(shuffled)
      ensures forall k | 0 <= k < done :: Took(steps[k], trace[k], trace[k + 1], idle)
    {
      hide Linked, Waiting, Settled, Limbo, Misplaced, Onward, Took;
      done, trace := 0, [View()];
      OnwardSelf(threads);
      while done < |steps|
        invariant Valid() && Onward(old(threads), threads) && done <= |steps|
        invariant Limbo(old(threads), idle) == {} && (forall s | s in steps :: !Split(s)) ==> Limbo(threads, idle) == {}
        invariant |trace| == done + 1 && trace[0] == old(View()) && trace[done] == View()
        invariant (forall k | 0 <= k < done :: Misplaced(steps[k], trace[k].threads, trace[k].waitqs, idle) == {}) ==>
          shuffled == old(shuffled)
        invariant forall k | 0 <= k < done :: Took(steps[k], trace[k], trace[k + 1], idle)
      {
        ghost var before := threads;
        var ok := Perform(steps[done]);
        if !ok { return; }
        OnwardOn(old(threads), before, threads);
        trace := trace + [View()];
        done := done + 1;
      }
      if Limbo(threads, idle) == {} { NobodyAdrift(); }
    }

    /** With nobody adrift, the run queue holds exactly the threads that nothing holds back. */
    lemma {:induction false} NobodyAdrift()
      requires Valid() && Limbo(threads, idle) == {}
      ensures forall t | t in threads && t != idle ::
        t in runq <==> !threads[t].pending && !threads[t].prestart && !threads[t].dead && !threads[t].suspended && !threads[t].timeout
    {
      hide Waiting, SortedBy, Distinct;
      forall t | t in threads && t != idle
        ensures t in runq <==> !threads[t].pending && !threads[t].prestart && !threads[t].dead && !threads[t].suspended && !threads[t].timeout
      {
        assert Sane(threads[t]);
        assert t !in Limbo(threads, idle);
      }
    }

    /** z_swap() to whichever queued thread, or to idle. */
    method SwitchTo(next: Tid)
      requires Valid() && (next in runq || next == idle)
      modifies this`current
      ensures Valid() && current == next
    {
      current := next;
    }
  }

  datatype Step =
    | Create(t: Tid, prio: int, delayed: bool) | Start(t: Tid)
    | Pend(q: Option<Qid>, timed: bool) | Wake(wq: Qid) | WakeAll(wq: Qid) | Expire(t: Tid)
    | Suspend(t: Tid) | Resume(t: Tid) | Sleep | Wakeup(t: Tid)
    | StopTimeout(t: Tid) | Unsuspend(t: Tid) | UnpendOne(wq: Qid) | ReadyUp(t: Tid) | SuspendLocked(t: Tid)
    | SetPrio(t: Tid, prio: int) | Yield | Switch(t: Tid)
    | Abort(t: Tid) | JoinOn(t: Tid, noWait: bool, timed: bool)

  datatype JoinCode = Joined | Busy | Deadlock | Blocked

  /** `Unlinked` when the thread's node, about to be unlinked, is in no list. */
  datatype PrioResult = Unlinked | Changed(needSched: bool)

  datatype Snapshot = Snapshot(threads: map<Tid, Thread>, waitqs: map<Qid, seq<Tid>>, runq: seq<Tid>, current: Tid)

  /** What each step is for: the change it makes if its caller can take it at all. */
  ghost predicate Took(s: Step, a: Snapshot, b: Snapshot, idle: Tid) {
    var runs := a.current in a.threads && a.current != idle && a.threads[a.current].queued;
    match s
    case Create(t, prio, delayed) =>
      t !in a.threads ==> t in b.threads && b.threads[t] == Thread(prio, false, false, true, false, false, delayed, None)
    case Start(t) => On(a, t, idle) ==> t in b.threads && !b.threads[t].prestart
    case Pend(q, timed) =>
      runs && (q == None || q.value.Object?) ==>
        && a.current in b.threads && b.threads[a.current].pending && b.threads[a.current].pendedOn == q
        && b.threads[a.current].timeout == timed && !b.threads[a.current].queued
    case Wake(q) =>
      var ms := Members(a.waitqs, q);
      ms != [] ==> ms[0] in b.threads && !b.threads[ms[0]].pending && !b.threads[ms[0]].timeout && b.threads[ms[0]].pendedOn == None
    case WakeAll(q) => Members(b.waitqs, q) == []
    case Expire(t) =>
      On(a, t, idle) && a.threads[t].timeout ==> t in b.threads && !b.threads[t].timeout && !b.threads[t].suspended
    case Suspend(t) => On(a, t, idle) ==> t in b.threads && b.threads[t].suspended && !b.threads[t].queued && !b.threads[t].timeout
    case Resume(t) => On(a, t, idle) ==> t in b.threads && !b.threads[t].suspended
    case Sleep =>
      runs ==> a.current in b.threads && b.threads[a.current].suspended && b.threads[a.current].timeout && !b.threads[a.current].queued
    case Wakeup(t) =>
      On(a, t, idle) && a.threads[t].timeout && !a.threads[t].pending ==>
        t in b.threads && !b.threads[t].timeout && !b.threads[t].suspended
    case StopTimeout(t) => On(a, t, idle) ==> t in b.threads && !b.threads[t].timeout
    case Unsuspend(t) => On(a, t, idle) ==> t in b.threads && !b.threads[t].suspended
    case UnpendOne(q) =>
      var ms := Members(a.waitqs, q);
      ms != [] ==> ms[0] in b.threads && !b.threads[ms[0]].pending && b.threads[ms[0]].pendedOn == None
    case ReadyUp(t) => On(a, t, idle) ==> t in b.threads && (Ready(a.threads[t]) ==> b.threads[t].queued)
    case SuspendLocked(t) => On(a, t, idle) ==> t in b.threads && b.threads[t].suspended && !b.threads[t].queued
    case SetPrio(t, prio) => On(a, t, idle) && !Adrift(a.threads[t]) ==> t in b.threads && b.threads[t].prio == prio
    case Yield =>
      runs ==>
        && b.threads == a.threads && Known(Omit(a.runq, a.current), a.threads)
        && b.runq == Insert(Omit(a.runq, a.current), a.current, a.threads)
    case Switch(t) => t in a.runq || t == idle ==> b.current == t
    case Abort(t) => On(a, t, idle) ==> t in b.threads && b.threads[t].dead
    case JoinOn(t, noWait, _) =>
      runs && t in a.threads && !a.threads[t].dead && !noWait && t != a.current && a.threads[t].pendedOn != Some(Join(a.current)) ==>
        a.current in b.threads && b.threads[a.current].pendedOn == Some(Join(t))
  }

  ghost predicate On(a: Snapshot, t: Tid, idle: Tid) {
    t in a.threads && t != idle
  }

  /** The sections after which a thread may be ready and not yet queued. */
  predicate Split(s: Step) { s.StopTimeout? || s.Unsuspend? || s.UnpendOne? }

  /** What z_sched_wake_thread() makes of a thread. */
  function Woken(th: Thread, isTimeout: bool): Thread {
    if th.dead then th
    else
      var free := th.(pending := th.pending && th.pendedOn == None, pendedOn := None, prestart := false,
                      suspended := th.suspended && !isTimeout);
      free.(queued := Ready(free))
  }

  /** The window is reachable: a thread sleeps, k_wakeup() has unmarked it but not readied it yet, and
      whoever runs then changes its priority. */
  method WakeupRace(prio: int, other: int) returns (r: PrioResult)
    ensures r == Unlinked
  {
    hide Linked, Waiting, Settled, Distinct, SortedBy, Insert, Omit, Known, Members, Disturbed;
    var k := new Scheduler();
    var t := k.idle + 1;
    k.Create(t, prio, false);
    k.Start(t);
    k.ThreadSane(t);
    k.InRunq(t);
    k.SwitchTo(t);
    k.Sleep();
    k.SwitchTo(k.idle);
    var _ := k.AbortTimeout(t);
    k.Unsuspend(t);
    r := k.SetPrio(t, other);
  }

  /** Nobody vanishes and the dead stay dead. */
  ghost predicate Onward(before: map<Tid, Thread>, after: map<Tid, Thread>) {
    forall t | t in before :: t in after && (before[t].dead ==> after[t].dead)
  }

  lemma {:induction false} OnwardSelf(threads: map<Tid, Thread>)
    ensures Onward(threads, threads)
  {
  }

  lemma {:induction false} OnwardOn(a: map<Tid, Thread>, b: map<Tid, Thread>, c: map<Tid, Thread>)
    requires Onward(a, b) && Onward(b, c)
    ensures Onward(a, c)
  {
  }

  /** The wait queue a step leaves out of order, if any. */
  ghost function Misplaced(s: Step, threads: map<Tid, Thread>, waitqs: map<Qid, seq<Tid>>, idle: Tid): set<Qid> {
    if s.SetPrio? && s.t in threads && s.t != idle && s.t !in Limbo(threads, idle) then
      Disturbed(threads, waitqs, s.t, s.prio)
    else {}
  }

  lemma {:induction false} OneOn(threads: map<Tid, Thread>, idle: Tid, t: Tid, th: Thread)
    requires t in threads && t != idle && th.dead == threads[t].dead
    ensures Onward(threads, threads[t := th])
    ensures (Adrift(th) ==> Adrift(threads[t])) ==> Limbo(threads[t := th], idle) <= Limbo(threads, idle)
  {
  }

  lemma {:induction false} NewOn(threads: map<Tid, Thread>, idle: Tid, t: Tid, th: Thread)
    requires t !in threads && !Ready(th)
    ensures Onward(threads, threads[t := th]) && Limbo(threads[t := th], idle) <= Limbo(threads, idle)
  {
  }

  lemma {:induction false} ManyOn(threads: map<Tid, Thread>, idle: Tid, after: map<Tid, Thread>)
    requires after.Keys == threads.Keys && forall t | t in after :: after[t] == threads[t] || after[t] == Released(threads[t])
    ensures Onward(threads, after) && Limbo(after, idle) <= Limbo(threads, idle)
  {
    forall t | t in threads ensures t in after && after[t].dead == threads[t].dead && (Adrift(after[t]) ==> Adrift(threads[t])) {
      assert t in after.Keys;
    }
  }

  lemma {:induction false} AbortOn(threads: map<Tid, Thread>, idle: Tid, after: map<Tid, Thread>, t: Tid)
    requires after.Keys == threads.Keys && t in after && after[t].dead
    requires after == threads || forall u | u in after && u != t :: after[u] == threads[u] || after[u] == Released(threads[u])
    ensures Onward(threads, after) && Limbo(after, idle) <= Limbo(threads, idle)
  {
    forall u | u in threads ensures u in after && (threads[u].dead ==> after[u].dead) && (Adrift(after[u]) ==> Adrift(threads[u])) {
      assert u in after.Keys;
    }
  }

  lemma {:induction false} InLimbo(threads: map<Tid, Thread>, idle: Tid, t: Tid)
    ensures t in Limbo(threads, idle) <==> t in threads && t != idle && Adrift(threads[t])
  {
  }

  lemma {:induction false} NewThread(
    threads: map<Tid, Thread>, runq: seq<Tid>, waitqs: map<Qid, seq<Tid>>, shuffled: set<Qid>, idle: Tid, t: Tid, th: Thread)
    requires Linked(threads, runq) && Waiting(threads, waitqs, shuffled) && Settled(threads, idle)
    requires t !in threads && th.pendedOn == None && !th.queued && Sane(th) && !Ready(th)
    ensures Linked(threads[t := th], runq) && Waiting(threads[t := th], waitqs, shuffled) && Settled(threads[t := th], idle)
  {
    var after := threads[t := th];
    forall u | u in threads && threads[u].pendedOn.Some? ensures Holds(waitqs, threads[u].pendedOn.value, u) { }
    forall u | u in after ensures JoinsLive(after[u], after) {
      assert u != t ==> JoinsLive(threads[u], threads);
    }
  }
}
