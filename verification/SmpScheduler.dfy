/** The hand-off of threads between processors in kernel/sched.c: one shared run queue, a current
    thread per CPU, and the rule that a current thread is never in the queue.  Every method is
    one section under the scheduler spinlock. */
module SmpScheduler {

  type Tid = nat

  /** `blocked` stands for the state bits that prevent a thread from running, `timeout` for a
      linked timeout, `coop` for a thread that only yields of its own accord. */
  datatype Thread = Thread(prio: int, coop: bool, queued: bool, blocked: bool, timeout: bool)

  datatype Cpu = Cpu(current: Tid, idle: Tid, swapOk: bool)

  // ---------------------------------------------------------------- the run queue

  type Threads = map<Tid, Thread>

  predicate Known(q: seq<Tid>, threads: Threads) {
    forall i | 0 <= i < |q| :: q[i] in threads
  }

  ghost predicate Distinct(q: seq<Tid>) {
    forall i, j | 0 <= i < j < |q| :: q[i] != q[j]
  }

  ghost predicate SortedBy(q: seq<Tid>, threads: Threads)
    requires Known(q, threads)
  {
    forall i, j | 0 <= i < j < |q| :: threads[q[i]].prio <= threads[q[j]].prio
  }

  /** z_priq_dumb_add() */
  function Insert(q: seq<Tid>, t: Tid, threads: Threads): (r: seq<Tid>)
    requires Known(q, threads) && t in threads
    ensures forall x :: x in r <==> x in q || x == t
  {
    if q == [] then [t]
    else if threads[t].prio < threads[q[0]].prio then [t] + q
    else
      assert forall i | 0 <= i < |q[1..]| :: q[1..][i] == q[i + 1];
      [q[0]] + Insert(q[1..], t, threads)
  }

  function Omit(q: seq<Tid>, t: Tid): (r: seq<Tid>)
    ensures forall x :: x in r <==> x in q && x != t
  {
    if q == [] then [] else if q[0] == t then Omit(q[1..], t) else [q[0]] + Omit(q[1..], t)
  }

  ghost predicate QueueOk(q: seq<Tid>, threads: Threads) {
    Distinct(q) && Known(q, threads) && SortedBy(q, threads)
  }

  lemma {:induction false} InsertOk(q: seq<Tid>, t: Tid, threads: Threads)
    requires QueueOk(q, threads) && t in threads && t !in q
    ensures QueueOk(Insert(q, t, threads), threads)
    decreases q
  {
    if q != [] && threads[t].prio >= threads[q[0]].prio {
      var rest := q[1..];
      assert forall i | 0 <= i < |rest| :: rest[i] == q[i + 1];
      assert q[0] !in rest;
      InsertOk(rest, t, threads);
      var r := Insert(rest, t, threads);
      forall i | 0 <= i < |r| ensures r[i] != q[0] && threads[q[0]].prio <= threads[r[i]].prio {
        assert r[i] in rest || r[i] == t;
      }
    }
  }

  /** The queue r is q with t behind everyone as urgent and before everyone less so. */
  ghost predicate Placed(q: seq<Tid>, t: Tid, r: seq<Tid>, threads: Threads)
    requires Known(q, threads) && t in threads
  {
    exists i: nat :: PlacedAt(q, t, r, threads, i)
  }

  ghost predicate PlacedAt(q: seq<Tid>, t: Tid, r: seq<Tid>, threads: Threads, i: nat)
    requires Known(q, threads) && t in threads
  {
    && i <= |q| && r == q[..i] + [t] + q[i..]
    && (forall j | 0 <= j < i :: threads[q[j]].prio <= threads[t].prio)
    && (forall j | i <= j < |q| :: threads[q[j]].prio > threads[t].prio)
  }

  lemma {:induction false} InsertPlaced(q: seq<Tid>, t: Tid, threads: Threads)
    requires Known(q, threads) && SortedBy(q, threads) && t in threads
    ensures Placed(q, t, Insert(q, t, threads), threads)
    decreases q
  {
    if q == [] || threads[t].prio < threads[q[0]].prio {
      assert q[..0] + [t] + q[0..] == [t] + q;
      assert PlacedAt(q, t, Insert(q, t, threads), threads, 0);
    } else {
      var rest := q[1..];
      assert forall j | 0 <= j < |rest| :: rest[j] == q[j + 1];
      InsertPlaced(rest, t, threads);
      var r := Insert(rest, t, threads);
      var i: nat :| PlacedAt(rest, t, r, threads, i);
      assert [q[0]] + r == q[..i + 1] + [t] + q[i + 1..];
      assert forall j | 1 <= j < |q| :: q[j] == rest[j - 1];
      assert PlacedAt(q, t, Insert(q, t, threads), threads, i + 1);
    }
  }

  /** Taking off a thread leaves the others in their order. */
  lemma {:induction false} OmitPlace(q: seq<Tid>, t: Tid, i: nat)
    requires i <= |q| && Distinct(q) && (if i < |q| then q[i] == t else t !in q)
    ensures Omit(q, t) == if i < |q| then q[..i] + q[i + 1..] else q
    decreases q
  {
    if q != [] {
      var rest := q[1..];
      assert forall j | 0 <= j < |rest| :: rest[j] == q[j + 1];
      if i == 0 {
        assert t !in rest;
        OmitPlace(rest, t, |rest|);
        assert q[..0] + q[1..] == rest;
      } else {
        OmitPlace(rest, t, i - 1);
        assert i < |q| ==> q[..i] + q[i + 1..] == [q[0]] + (rest[..i - 1] + rest[i..]);
        assert q[0] != t;
      }
    }
  }

  lemma {:induction false} OmitOk(q: seq<Tid>, t: Tid, threads: Threads)
    requires QueueOk(q, threads)
    ensures QueueOk(Omit(q, t), threads)
    decreases q
  {
    if q != [] {
      var rest := q[1..];
      assert forall i | 0 <= i < |rest| :: rest[i] == q[i + 1];
      assert q[0] !in rest;
      OmitOk(rest, t, threads);
      var r := Omit(rest, t);
      forall i | 0 <= i < |r| ensures r[i] != q[0] && threads[q[0]].prio <= threads[r[i]].prio {
        assert r[i] in rest;
      }
    }
  }

  lemma {:induction false} QueueOkFrame(q: seq<Tid>, threads: Threads, t: Tid, th: Thread)
    requires QueueOk(q, threads) && t in threads && th.prio == threads[t].prio
    ensures QueueOk(q, threads[t := th])
  {
  }

  // ---------------------------------------------------------------- the invariant

  /** The thread is current on some CPU. */
  predicate Runs(cpus: seq<Cpu>, t: Tid) {
    exists i :: 0 <= i < |cpus| && cpus[i].current == t
  }

  predicate IsIdle(cpus: seq<Cpu>, t: Tid) {
    exists i :: 0 <= i < |cpus| && cpus[i].idle == t
  }

  /** A thread is current on at most one CPU, and the idle thread of a CPU only ever there. */
  ghost predicate Exclusive(cpus: seq<Cpu>) {
    && (forall i, j | 0 <= i < j < |cpus| :: cpus[i].current != cpus[j].current && cpus[i].idle != cpus[j].idle)
    && (forall i, j | 0 <= i < |cpus| && 0 <= j < |cpus| && cpus[i].current == cpus[j].idle :: i == j)
  }

  /** A thread is in the run queue exactly when it is flagged QUEUED and current nowhere. */
  ghost predicate Linked(cpus: seq<Cpu>, threads: Threads, runq: seq<Tid>) {
    && QueueOk(runq, threads)
    && forall t | t in threads :: t in runq <==> threads[t].queued && !Runs(cpus, t)
  }

  /** Queued threads can run, idle threads are never queued or blocked. */
  ghost predicate Sane(cpus: seq<Cpu>, threads: Threads, t: Tid)
    requires t in threads
  {
    && (threads[t].queued ==> !threads[t].blocked && !threads[t].timeout)
    && (IsIdle(cpus, t) ==> !threads[t].queued && !threads[t].blocked && !threads[t].timeout)
  }

  /** No thread that could run is lost: it is queued, current, idle, or in `limbo`, having been
      unpended by a caller that has yet to make it ready. */
  ghost predicate Accounted(cpus: seq<Cpu>, threads: Threads, limbo: set<Tid>, t: Tid)
    requires t in threads
  {
    !threads[t].blocked && !threads[t].timeout && !threads[t].queued && !Runs(cpus, t) && !IsIdle(cpus, t) ==> t in limbo
  }

  ghost predicate CpuOk(cpu: Cpu, threads: Threads, loose: bool) {
    && cpu.current in threads && cpu.idle in threads
    && (!loose ==> !threads[cpu.current].blocked && !threads[cpu.current].timeout)
  }

  /** `loose` is the CPU, if any, whose current thread is on its way out. */
  ghost predicate Inv(cpus: seq<Cpu>, threads: Threads, runq: seq<Tid>, limbo: set<Tid>, loose: int) {
    && Exclusive(cpus)
    && Linked(cpus, threads, runq)
    && (forall i | 0 <= i < |cpus| :: CpuOk(cpus[i], threads, i == loose))
    && (forall t | t in threads :: Sane(cpus, threads, t) && Accounted(cpus, threads, limbo, t))
    && IdleLast(cpus, threads)
  }

  /** Every thread is more urgent than the idle threads, which may share one priority. */
  ghost predicate IdleLast(cpus: seq<Cpu>, threads: Threads) {
    forall i, t | 0 <= i < |cpus| && cpus[i].idle in threads && t in threads && !IsIdle(cpus, t) ::
      threads[t].prio < threads[cpus[i].idle].prio
  }

  /** The priorities a thread may be created with: all but that of the idle threads. */
  predicate AboveIdle(cpus: seq<Cpu>, threads: Threads, prio: int) {
    forall i | 0 <= i < |cpus| && cpus[i].idle in threads :: prio < threads[cpus[i].idle].prio
  }

  lemma {:induction false} SameIdles(cpus: seq<Cpu>, cpus': seq<Cpu>, t: Tid)
    requires |cpus'| == |cpus| && forall i | 0 <= i < |cpus| :: cpus'[i].idle == cpus[i].idle
    ensures IsIdle(cpus, t) <==> IsIdle(cpus', t)
  {
    if IsIdle(cpus, t) { var i :| 0 <= i < |cpus| && cpus[i].idle == t; assert cpus'[i].idle == t; }
    if IsIdle(cpus', t) { var i :| 0 <= i < |cpus'| && cpus'[i].idle == t; assert cpus[i].idle == t; }
  }

  /** A step that changes no priority and no idle thread keeps that. */
  lemma {:induction false} IdleLastFrame(cpus: seq<Cpu>, threads: Threads, cpus': seq<Cpu>, threads': Threads)
    requires IdleLast(cpus, threads) && |cpus'| == |cpus| && forall i | 0 <= i < |cpus| :: cpus'[i].idle == cpus[i].idle
    requires threads'.Keys == threads.Keys && forall t | t in threads :: threads'[t].prio == threads[t].prio
    ensures IdleLast(cpus', threads')
  {
    forall i, t | 0 <= i < |cpus'| && cpus'[i].idle in threads' && t in threads' && !IsIdle(cpus', t)
      ensures threads'[t].prio < threads'[cpus'[i].idle].prio
    {
      SameIdles(cpus, cpus', t);
      assert cpus[i].idle in threads.Keys && t in threads.Keys;
    }
  }

  // ---------------------------------------------------------------- how steps affect it

  /** A thread that is not in the run queue, or stays queued, may change its flags. */
  lemma {:induction false} FlagsChange(
    cpus: seq<Cpu>, threads: Threads, runq: seq<Tid>, limbo: set<Tid>, loose: int,
    t: Tid, th: Thread, limbo': set<Tid>, loose': int)
    requires Inv(cpus, threads, runq, limbo, loose) && t in threads && limbo - {t} <= limbo'
    requires th.prio == threads[t].prio && !IsIdle(cpus, t)
    requires th.queued == threads[t].queued || Runs(cpus, t)
    requires th.queued ==> !th.blocked && !th.timeout
    requires !th.blocked && !th.timeout && !th.queued && !Runs(cpus, t) ==> t in limbo'
    requires forall i | 0 <= i < |cpus| && cpus[i].current == t :: i == loose' || (!th.blocked && !th.timeout)
    requires loose == loose' || !(0 <= loose < |cpus|)
    ensures Inv(cpus, threads[t := th], runq, limbo', loose')
  {
    var after := threads[t := th];
    hide IdleLast;
    IdleLastFrame(cpus, threads, cpus, after);
    QueueOkFrame(runq, threads, t, th);
    forall u | u in after ensures Sane(cpus, after, u) && Accounted(cpus, after, limbo', u) {
      assert u != t ==> Sane(cpus, threads, u) && Accounted(cpus, threads, limbo, u);
    }
    forall i | 0 <= i < |cpus| ensures CpuOk(cpus[i], after, i == loose') {
      assert CpuOk(cpus[i], threads, i == loose);
    }
  }

  lemma {:induction false} RunsAfter(cpus: seq<Cpu>, c: nat, next: Tid, ok: bool)
    requires Exclusive(cpus) && c < |cpus|
    ensures
      var after := cpus[c := cpus[c].(current := next, swapOk := ok)];
      && (forall t :: Runs(after, t) <==> t == next || (Runs(cpus, t) && t != cpus[c].current))
      && (forall t :: IsIdle(after, t) <==> IsIdle(cpus, t))
  {
    var after := cpus[c := cpus[c].(current := next, swapOk := ok)];
    forall t ensures Runs(after, t) <==> t == next || (Runs(cpus, t) && t != cpus[c].current) {
      if Runs(cpus, t) && t != cpus[c].current {
        var i :| 0 <= i < |cpus| && cpus[i].current == t;
        assert after[i].current == t;
      }
      if t == next { assert after[c].current == t; }
      if Runs(after, t) && t != next {
        var i :| 0 <= i < |after| && after[i].current == t;
        assert cpus[i].current == t;
      }
    }
    forall t ensures IsIdle(after, t) <==> IsIdle(cpus, t) {
      if IsIdle(cpus, t) { var i :| 0 <= i < |cpus| && cpus[i].idle == t; assert after[i].idle == t; }
      if IsIdle(after, t) { var i :| 0 <= i < |after| && after[i].idle == t; assert cpus[i].idle == t; }
    }
  }

  // ---------------------------------------------------------------- switching

  /** Which thread a CPU should run next: the best of the queue, or its idle thread, or the
      current thread if that can go on and is more urgent, ties without having yielded, or is
      cooperative and has not yielded. */
  function Choice(cpu: Cpu, threads: Threads, runq: seq<Tid>): (t: Tid)
    requires cpu.current in threads && cpu.idle in threads && Known(runq, threads)
    ensures t == cpu.current || t == if runq == [] then cpu.idle else runq[0]
  {
    var best := if runq == [] then cpu.idle else runq[0];
    var curr := threads[cpu.current];
    if curr.blocked then best
    else if curr.prio < threads[best].prio then cpu.current
    else if cpu.swapOk then best
    else if curr.prio == threads[best].prio || curr.coop then cpu.current
    else best
  }

  /** What makes a choice right: it can run; nothing queued is more urgent unless a cooperative thread
      that has not yielded keeps its CPU; the current thread survives a tie exactly if it has not
      yielded; and the CPU goes idle only when the queue is empty and the current thread cannot go on. */
  ghost predicate Right(cpu: Cpu, threads: Threads, runq: seq<Tid>, next: Tid)
    requires cpu.current in threads && Known(runq, threads) && next in threads
  {
    var curr := threads[cpu.current];
    var keeps := next == cpu.current && curr.coop && !cpu.swapOk;
    && !threads[next].blocked
    && (next == cpu.current || next == cpu.idle || next in runq)
    && (forall t | t in runq :: threads[next].prio <= threads[t].prio || keeps)
    && (!curr.blocked ==> threads[next].prio <= curr.prio || next in runq)
    && (next == cpu.idle && cpu.current != cpu.idle ==> runq == [] && curr.blocked)
    && (runq != [] && !curr.blocked && curr.prio == threads[runq[0]].prio ==> (next == cpu.current <==> !cpu.swapOk))
    && (runq != [] && !curr.blocked && (cpu.swapOk || !curr.coop) ==>
          (next == cpu.current <==> curr.prio < threads[runq[0]].prio || (curr.prio == threads[runq[0]].prio && !cpu.swapOk)))
  }

  /** In every state, on every CPU and with any number of idle threads, the choice is right. */
  lemma {:induction false} ChoiceIsBest(
    cpus: seq<Cpu>, threads: Threads, runq: seq<Tid>, limbo: set<Tid>, loose: int, c: nat)
    requires Inv(cpus, threads, runq, limbo, loose) && c < |cpus|
    ensures cpus[c].current in threads && cpus[c].idle in threads && Known(runq, threads)
    ensures Right(cpus[c], threads, runq, Choice(cpus[c], threads, runq))
  {
    QueueFacts(cpus, threads, runq, limbo, loose, c);
    forall t | t in runq
      ensures t in threads && threads[runq[0]].prio <= threads[t].prio && !threads[t].blocked && threads[t].prio < threads[cpus[c].idle].prio
    {
      assert Sane(cpus, threads, t);
    }
    OwnIdle(cpus, c);
    assert runq != [] ==> runq[0] in runq;
  }

  /** Going on with the current thread: a yield that found nobody to yield to. */
  lemma {:induction false} StaysOn(cpus: seq<Cpu>, threads: Threads, runq: seq<Tid>, limbo: set<Tid>, c: nat)
    requires Inv(cpus, threads, runq, limbo, -1) && c < |cpus|
    ensures
      var prev := cpus[c].current;
      prev in threads &&
      Inv(cpus[c := cpus[c].(swapOk := false)], threads[prev := threads[prev].(queued := false)], runq, limbo, -1)
  {
    var prev := cpus[c].current;
    assert CpuOk(cpus[c], threads, false);
    if IsIdle(cpus, prev) {
      assert Sane(cpus, threads, prev);
      assert threads[prev := threads[prev].(queued := false)] == threads;
    } else {
      FlagsChange(cpus, threads, runq, limbo, -1, prev, threads[prev].(queued := false), limbo, -1);
    }
    SwapOkFrame(cpus, threads[prev := threads[prev].(queued := false)], runq, limbo, -1, c, false);
  }

  lemma {:induction false} RunsSame(cpus: seq<Cpu>, c: nat, ok: bool)
    requires Exclusive(cpus) && c < |cpus|
    ensures forall t :: Runs(cpus[c := cpus[c].(swapOk := ok)], t) <==> Runs(cpus, t)
    ensures forall t :: IsIdle(cpus[c := cpus[c].(swapOk := ok)], t) <==> IsIdle(cpus, t)
  {
    assert cpus[c].(swapOk := ok) == cpus[c].(current := cpus[c].current, swapOk := ok);
    RunsAfter(cpus, c, cpus[c].current, ok);
    assert Runs(cpus, cpus[c].current);
  }

  lemma {:induction false} SwapOkFrame(
    cpus: seq<Cpu>, threads: Threads, runq: seq<Tid>, limbo: set<Tid>, loose: int, c: nat, ok: bool)
    requires Inv(cpus, threads, runq, limbo, loose) && c < |cpus|
    ensures Inv(cpus[c := cpus[c].(swapOk := ok)], threads, runq, limbo, loose)
  {
    hide Runs, IsIdle, QueueOk, IdleLast;
    var after := cpus[c := cpus[c].(swapOk := ok)];
    RunsSame(cpus, c, ok);
    IdleLastFrame(cpus, threads, after, threads);
    forall i | 0 <= i < |after| ensures CpuOk(after[i], threads, i == loose) {
      assert CpuOk(cpus[i], threads, i == loose);
    }
    forall t | t in threads ensures Sane(after, threads, t) && Accounted(after, threads, limbo, t) {
      assert Sane(cpus, threads, t) && Accounted(cpus, threads, limbo, t);
    }
  }

  /** What the switch away from `prev` makes of the thread table and of the queue. */
  function SwitchedThreads(threads: Threads, prev: Tid, idle: Tid, next: Tid): Threads
    requires prev in threads && next in threads && prev != next
  {
    threads[prev := threads[prev].(queued := !threads[prev].blocked && prev != idle)][next := threads[next].(queued := false)]
  }

  ghost predicate MaySwitch(
    cpus: seq<Cpu>, threads: Threads, runq: seq<Tid>, limbo: set<Tid>, loose: int, c: nat, next: Tid)
  {
    && c < |cpus| && Inv(cpus, threads, runq, limbo, loose) && (loose == c || loose == -1)
    && next in threads && next != cpus[c].current && (next == cpus[c].idle || next in runq)
    && cpus[c].current in threads && (loose == c ==> threads[cpus[c].current].blocked)
  }

  lemma {:induction false} SwitchExclusive(
    cpus: seq<Cpu>, threads: Threads, runq: seq<Tid>, limbo: set<Tid>, loose: int, c: nat, next: Tid)
    requires MaySwitch(cpus, threads, runq, limbo, loose, c, next)
    ensures Exclusive(cpus[c := cpus[c].(current := next, swapOk := false)])
    ensures !Runs(cpus, next)
  {
    assert Sane(cpus, threads, next);
    forall i | 0 <= i < |cpus| && i != c ensures cpus[i].current != next {
      assert next in runq ==> !Runs(cpus, next);
    }
    forall i | 0 <= i < |cpus| && i != c ensures cpus[i].idle != next {
      assert cpus[i].idle == next ==> IsIdle(cpus, next);
    }
  }

  lemma {:induction false} SwitchQueueOk(
    threads: Threads, runq: seq<Tid>, prev: Tid, idle: Tid, next: Tid)
    requires QueueOk(runq, threads) && prev in threads && next in threads && prev != next && prev !in runq
    ensures
      var threads' := SwitchedThreads(threads, prev, idle, next);
      var rest := Omit(runq, next);
      Known(rest, threads') && QueueOk(rest, threads') && QueueOk(Insert(rest, prev, threads'), threads')
  {
    var threads1 := threads[prev := threads[prev].(queued := !threads[prev].blocked && prev != idle)];
    var threads' := SwitchedThreads(threads, prev, idle, next);
    var rest := Omit(runq, next);
    OmitOk(runq, next, threads);
    QueueOkFrame(rest, threads, prev, threads1[prev]);
    QueueOkFrame(rest, threads1, next, threads'[next]);
    InsertOk(rest, prev, threads');
  }

  lemma {:induction false} SwitchLinked(
    cpus: seq<Cpu>, threads: Threads, runq: seq<Tid>, limbo: set<Tid>, loose: int, c: nat, next: Tid)
    requires MaySwitch(cpus, threads, runq, limbo, loose, c, next)
    ensures
      var prev, idle := cpus[c].current, cpus[c].idle;
      var threads' := SwitchedThreads(threads, prev, idle, next);
      var rest := Omit(runq, next);
      && Known(rest, threads')
      && Linked(cpus[c := cpus[c].(current := next, swapOk := false)], threads',
                if threads'[prev].queued then Insert(rest, prev, threads') else rest)
  {
    hide QueueOk, Runs, IsIdle, Known, Omit, Insert, CpuOk, Sane, Accounted;
    var prev, idle := cpus[c].current, cpus[c].idle;
    SwitchExclusive(cpus, threads, runq, limbo, loose, c, next);
    RunsAfter(cpus, c, next, false);
    OwnIdle(cpus, c);
    SwitchQueueOk(threads, runq, prev, idle, next);
  }

  lemma {:induction false} SwitchInv(
    cpus: seq<Cpu>, threads: Threads, runq: seq<Tid>, limbo: set<Tid>, loose: int, c: nat, next: Tid)
    requires MaySwitch(cpus, threads, runq, limbo, loose, c, next)
    ensures
      var prev, idle := cpus[c].current, cpus[c].idle;
      var threads' := SwitchedThreads(threads, prev, idle, next);
      var rest := Omit(runq, next);
      && Known(rest, threads')
      && Inv(cpus[c := cpus[c].(current := next, swapOk := false)], threads',
             if threads'[prev].queued then Insert(rest, prev, threads') else rest, limbo, -1)
  {
    hide Linked, Exclusive, Runs, IsIdle, Known, IdleLast;
    var prev, idle := cpus[c].current, cpus[c].idle;
    var threads' := SwitchedThreads(threads, prev, idle, next);
    var after := cpus[c := cpus[c].(current := next, swapOk := false)];
    SwitchExclusive(cpus, threads, runq, limbo, loose, c, next);
    SwitchLinked(cpus, threads, runq, limbo, loose, c, next);
    RunsAfter(cpus, c, next, false);
    NextCanRun(cpus, threads, runq, limbo, loose, c, next);
    IdleLastFrame(cpus, threads, after, threads');
    forall i | 0 <= i < |after| ensures CpuOk(after[i], threads', false) {
      assert CpuOk(cpus[i], threads, i == loose);
      if i != c { OthersDiffer(cpus, c, i); }
    }
    forall t | t in threads' ensures Sane(after, threads', t) && Accounted(after, threads', limbo, t) {
      assert Sane(cpus, threads, t) && Accounted(cpus, threads, limbo, t);
      assert CpuOk(cpus[c], threads, c == loose);
      OwnIdle(cpus, c);
    }
  }

  /** What a switch leaves of the queue: the next thread is off its head, if it was on it, and the previous
      one, if it can go on, stands behind its equals. */
  ghost predicate Handed(q: seq<Tid>, prev: Tid, next: Tid, r: seq<Tid>, threads: Threads)
    requires prev in threads
  {
    && (next in q ==> next == q[0])
    && var rest := if next in q then q[1..] else q;
       Known(rest, threads) && if threads[prev].queued then Placed(rest, prev, r, threads) else r == rest
  }

  lemma {:induction false} SwitchHands(
    cpus: seq<Cpu>, threads: Threads, runq: seq<Tid>, limbo: set<Tid>, loose: int, c: nat, next: Tid)
    requires MaySwitch(cpus, threads, runq, limbo, loose, c, next)
    requires next in runq ==> next == runq[0]
    ensures
      var prev, idle := cpus[c].current, cpus[c].idle;
      var threads' := SwitchedThreads(threads, prev, idle, next);
      var rest := Omit(runq, next);
      && Known(rest, threads')
      && Handed(runq, prev, next, if threads'[prev].queued then Insert(rest, prev, threads') else rest, threads')
  {
    hide Runs, IsIdle, CpuOk, Sane, Accounted, IdleLast, Exclusive, Insert, Placed, Omit;
    var prev, idle := cpus[c].current, cpus[c].idle;
    var threads' := SwitchedThreads(threads, prev, idle, next);
    var rest := Omit(runq, next);
    QueueFacts(cpus, threads, runq, limbo, loose, c);
    SwitchQueueOk(threads, runq, prev, idle, next);
    OmitHead(runq, next);
    InsertPlaced(rest, prev, threads');
  }

  lemma {:induction false} OmitHead(q: seq<Tid>, t: Tid)
    requires Distinct(q) && (t in q ==> t == q[0])
    ensures Omit(q, t) == if t in q then q[1..] else q
  {
    if t in q {
      OmitPlace(q, t, 0);
      assert q[..0] + q[1..] == q[1..];
    } else {
      OmitPlace(q, t, |q|);
    }
  }

  lemma {:induction false} NextCanRun(
    cpus: seq<Cpu>, threads: Threads, runq: seq<Tid>, limbo: set<Tid>, loose: int, c: nat, next: Tid)
    requires MaySwitch(cpus, threads, runq, limbo, loose, c, next)
    ensures !threads[next].blocked && !threads[next].timeout
  {
    assert Sane(cpus, threads, next);
    assert next == cpus[c].idle ==> IsIdle(cpus, next);
  }

  lemma {:induction false} OthersDiffer(cpus: seq<Cpu>, c: nat, i: nat)
    requires Exclusive(cpus) && c < |cpus| && i < |cpus| && i != c
    ensures cpus[i].current != cpus[c].current && Runs(cpus, cpus[i].current)
  {
  }

  lemma {:induction false} OwnIdle(cpus: seq<Cpu>, c: nat)
    requires Exclusive(cpus) && c < |cpus|
    ensures IsIdle(cpus, cpus[c].current) <==> cpus[c].current == cpus[c].idle
    ensures Runs(cpus, cpus[c].current)
  {
  }

  lemma {:induction false} OmitAbsent(q: seq<Tid>, t: Tid)
    requires t !in q
    ensures Omit(q, t) == q
    decreases q
  {
    if q != [] { OmitAbsent(q[1..], t); }
  }

  lemma {:induction false} QueueFacts(
    cpus: seq<Cpu>, threads: Threads, runq: seq<Tid>, limbo: set<Tid>, loose: int, c: nat)
    requires Inv(cpus, threads, runq, limbo, loose) && c < |cpus|
    ensures cpus[c].current in threads && cpus[c].idle in threads && Known(runq, threads)
    ensures forall t | t in threads :: t in runq ==> threads[t].queued && t != cpus[c].current
    ensures !threads[cpus[c].idle].queued && !threads[cpus[c].idle].blocked
    ensures threads[cpus[c].current].queued ==> !threads[cpus[c].current].blocked
  {
    assert CpuOk(cpus[c], threads, c == loose);
    assert IsIdle(cpus, cpus[c].idle) && Runs(cpus, cpus[c].current);
    assert Sane(cpus, threads, cpus[c].idle) && Sane(cpus, threads, cpus[c].current);
  }

  lemma {:induction false} RunqSorted(cpus: seq<Cpu>, threads: Threads, runq: seq<Tid>, limbo: set<Tid>, loose: int)
    requires Inv(cpus, threads, runq, limbo, loose)
    ensures Known(runq, threads) && SortedBy(runq, threads)
  {
  }

  /** A blocked current thread is never chosen again. */
  lemma {:induction false} NeverLoose(
    cpus: seq<Cpu>, threads: Threads, runq: seq<Tid>, limbo: set<Tid>, loose: int, c: nat)
    requires Inv(cpus, threads, runq, limbo, loose) && c < |cpus|
    ensures cpus[c].current in threads && cpus[c].idle in threads && Known(runq, threads)
    ensures threads[cpus[c].current].blocked ==> Choice(cpus[c], threads, runq) != cpus[c].current
  {
    QueueFacts(cpus, threads, runq, limbo, loose, c);
  }

  /** A thread that runs nowhere joins the queue. */
  lemma {:induction false} JoinsQueue(
    cpus: seq<Cpu>, threads: Threads, runq: seq<Tid>, limbo: set<Tid>, t: Tid)
    requires Inv(cpus, threads, runq, limbo, -1) && t in threads && !IsIdle(cpus, t) && !Runs(cpus, t)
    requires !threads[t].queued && !threads[t].blocked && !threads[t].timeout
    ensures Known(runq, threads)
    ensures Known(runq, threads[t := threads[t].(queued := true)])
    ensures
      var after := threads[t := threads[t].(queued := true)];
      Inv(cpus, after, Insert(runq, t, after), limbo - {t}, -1)
  {
    var after := threads[t := threads[t].(queued := true)];
    hide IdleLast, Linked, Exclusive, Insert, Runs, IsIdle, Known;
    IdleLastFrame(cpus, threads, cpus, after);
    JoinsLinked(cpus, threads, runq, t);
    forall i | 0 <= i < |cpus| ensures CpuOk(cpus[i], after, false) { assert CpuOk(cpus[i], threads, false); }
    forall u | u in after ensures Sane(cpus, after, u) && Accounted(cpus, after, limbo - {t}, u) {
      assert Sane(cpus, threads, u) && Accounted(cpus, threads, limbo, u);
    }
  }

  lemma {:induction false} JoinsLinked(cpus: seq<Cpu>, threads: Threads, runq: seq<Tid>, t: Tid)
    requires Linked(cpus, threads, runq) && t in threads && t !in runq && !Runs(cpus, t)
    ensures Known(runq, threads)
    ensures
      var after := threads[t := threads[t].(queued := true)];
      Known(runq, after) && Linked(cpus, after, Insert(runq, t, after))
  {
    hide Runs;
    var after := threads[t := threads[t].(queued := true)];
    QueueOkFrame(runq, threads, t, after[t]);
    InsertOk(runq, t, after);
    hide QueueOk;
  }

  lemma {:induction false} LeavesLimbo(cpus: seq<Cpu>, threads: Threads, runq: seq<Tid>, limbo: set<Tid>, t: Tid)
    requires Inv(cpus, threads, runq, limbo, -1) && t in threads
    requires threads[t].queued || threads[t].blocked || threads[t].timeout || Runs(cpus, t)
    ensures Inv(cpus, threads, runq, limbo - {t}, -1)
  {
    forall u | u in threads ensures Accounted(cpus, threads, limbo - {t}, u) {
      assert Accounted(cpus, threads, limbo, u);
    }
  }

  lemma {:induction false} ChoiceFrame(cpu: Cpu, threads: Threads, runq: seq<Tid>, t: Tid)
    requires cpu.current in threads && cpu.idle in threads && Known(runq, threads) && t in threads
    ensures Known(runq, threads[t := threads[t].(queued := true)])
    ensures Choice(cpu, threads[t := threads[t].(queued := true)], runq) == Choice(cpu, threads, runq)
  {
  }

  lemma {:induction false} InQueue(cpus: seq<Cpu>, threads: Threads, runq: seq<Tid>, limbo: set<Tid>, t: Tid)
    requires Inv(cpus, threads, runq, limbo, -1) && t in threads && !IsIdle(cpus, t) && t !in limbo
    ensures !threads[t].blocked && !threads[t].timeout ==> t in runq || Runs(cpus, t)
  {
    assert Accounted(cpus, threads, limbo, t);
  }

  lemma {:induction false} CreateInv(
    cpus: seq<Cpu>, threads: Threads, runq: seq<Tid>, limbo: set<Tid>, t: Tid, th: Thread)
    requires Inv(cpus, threads, runq, limbo, -1) && t !in threads && th.blocked && !th.queued
    requires AboveIdle(cpus, threads, th.prio)
    ensures Inv(cpus, threads[t := th], runq, limbo, -1)
  {
    var after := threads[t := th];
    forall i | 0 <= i < |cpus| ensures CpuOk(cpus[i], after, false) && cpus[i].idle != t && cpus[i].current != t {
      assert CpuOk(cpus[i], threads, false);
    }
    forall u | u in after ensures Sane(cpus, after, u) && Accounted(cpus, after, limbo, u) {
      assert u != t ==> Sane(cpus, threads, u) && Accounted(cpus, threads, limbo, u);
    }
  }

  lemma {:induction false} CurrentOk(cpus: seq<Cpu>, threads: Threads, runq: seq<Tid>, limbo: set<Tid>, c: nat)
    requires Inv(cpus, threads, runq, limbo, -1) && c < |cpus| && cpus[c].current != cpus[c].idle
    ensures var t := cpus[c].current;
      t in threads && Runs(cpus, t) && !IsIdle(cpus, t) && !threads[t].blocked && !threads[t].timeout
    ensures forall i | 0 <= i < |cpus| && cpus[i].current == cpus[c].current :: i == c
  {
    OwnIdle(cpus, c);
    assert CpuOk(cpus[c], threads, false);
  }

  /** A yield flags the current thread and allows the swap; what it then chooses is right, and not
      the idle thread. */
  lemma {:induction false} YieldFlags(cpus: seq<Cpu>, threads: Threads, runq: seq<Tid>, limbo: set<Tid>, c: nat)
    requires Inv(cpus, threads, runq, limbo, -1) && c < |cpus| && cpus[c].current != cpus[c].idle
    ensures cpus[c].current in threads && cpus[c].idle in threads && Known(runq, threads)
    ensures
      var t := cpus[c].current;
      var cpu, flagged := cpus[c].(swapOk := true), threads[t := threads[t].(queued := true)];
      var next := Choice(cpu, threads, runq);
      && !threads[t].blocked
      && Inv(cpus[c := cpu], flagged, runq, limbo, -1)
      && Known(runq, flagged) && Choice(cpu, flagged, runq) == next
      && next in threads && Right(cpu, threads, runq, next) && next != cpu.idle
  {
    hide Linked, Exclusive, Runs, IsIdle, QueueOk, CpuOk, Sane, Accounted, IdleLast;
    var t := cpus[c].current;
    QueueFacts(cpus, threads, runq, limbo, -1, c);
    var cpu, flagged := cpus[c].(swapOk := true), threads[t := threads[t].(queued := true)];
    CurrentOk(cpus, threads, runq, limbo, c);
    FlagsChange(cpus, threads, runq, limbo, -1, t, flagged[t], limbo, -1);
    SwapOkFrame(cpus, flagged, runq, limbo, -1, c, true);
    SwapOkFrame(cpus, threads, runq, limbo, -1, c, true);
    ChoiceIsBest(cpus[c := cpu], threads, runq, limbo, -1, c);
    ChoiceFrame(cpu, threads, runq, t);
  }

  /** The thread table after a yield, seen from before it. */
  lemma {:induction false} YieldTables(threads: Threads, t: Tid, idle: Tid, next: Tid)
    requires t in threads && next in threads && t != idle && !threads[t].blocked
    ensures
      var flagged := threads[t := threads[t].(queued := true)];
      && (next == t ==> flagged[t := flagged[t].(queued := false)] == threads[t := threads[t].(queued := false)])
      && (next != t ==> SwitchedThreads(flagged, t, idle, next) == flagged[next := threads[next].(queued := false)])
  {
  }

  /** Pending flags the current thread blocked, off the queue and on its way out. */
  lemma {:induction false} PendFlags(cpus: seq<Cpu>, threads: Threads, runq: seq<Tid>, limbo: set<Tid>, c: nat, timed: bool)
    requires Inv(cpus, threads, runq, limbo, -1) && c < |cpus| && cpus[c].current != cpus[c].idle
    ensures cpus[c].current in threads && cpus[c].idle in threads && Known(runq, threads)
    ensures
      var t := cpus[c].current;
      var gone := threads[t := threads[t].(queued := false, blocked := true, timeout := timed)];
      Inv(cpus[c := cpus[c].(swapOk := true)], gone, runq, limbo, c) && t !in runq
  {
    hide Linked, Exclusive, Runs, IsIdle, QueueOk, CpuOk, Sane, Accounted, IdleLast;
    var t := cpus[c].current;
    QueueFacts(cpus, threads, runq, limbo, -1, c);
    var gone := threads[t := threads[t].(queued := false, blocked := true, timeout := timed)];
    CurrentOk(cpus, threads, runq, limbo, c);
    FlagsChange(cpus, threads, runq, limbo, -1, t, gone[t], limbo, c);
    SwapOkFrame(cpus, gone, runq, limbo, c, c, true);
  }

  lemma {:induction false} PendTables(threads: Threads, t: Tid, idle: Tid, next: Tid)
    requires t in threads && next in threads && t != next && threads[t].blocked && !threads[t].queued
    ensures SwitchedThreads(threads, t, idle, next) == threads[next := threads[next].(queued := false)]
  {
    assert threads[t := threads[t].(queued := false)] == threads;
  }

  lemma {:induction false} GoneFrom(cpus: seq<Cpu>, threads: Threads, runq: seq<Tid>, limbo: set<Tid>, c: nat, next: Tid)
    requires Inv(cpus, threads, runq, limbo, -1) && c < |cpus| && next != cpus[c].current
    ensures !Runs(cpus[c := cpus[c].(current := next, swapOk := false)], cpus[c].current)
  {
    RunsAfter(cpus, c, next, false);
  }

  class Smp {
    var cpus: seq<Cpu>
    var threads: Threads
    var runq: seq<Tid>
    ghost var limbo: set<Tid>

    ghost predicate Valid()
      reads this
    {
      Inv(cpus, threads, runq, limbo, -1)
    }

    /** Boot: every CPU runs its idle thread. */
    constructor (idles: seq<Tid>, prio: int)
      requires Distinct(idles)
      ensures Valid() && limbo == {} && runq == []
      ensures |cpus| == |idles| && forall i | 0 <= i < |cpus| :: cpus[i] == Cpu(idles[i], idles[i], false)
    {
      cpus := seq(|idles|, i requires 0 <= i < |idles| => Cpu(idles[i], idles[i], false));
      threads := map t | t in idles :: Thread(prio, false, false, false, false);
      runq, limbo := [], {};
      new;
      forall t | t in threads ensures Sane(cpus, threads, t) && Accounted(cpus, threads, limbo, t) && Runs(cpus, t) {
        var i :| 0 <= i < |idles| && idles[i] == t;
        assert cpus[i].current == t && cpus[i].idle == t;
      }
    }

    /** A thread is created blocked, before it is started. */
    method Create(t: Tid, prio: int, coop: bool)
      requires Valid() && t !in threads && AboveIdle(cpus, threads, prio)
      modifies this`threads
      ensures Valid() && threads == old(threads)[t := Thread(prio, coop, false, true, false)]
    {
      hide Inv, AboveIdle;
      threads := threads[t := Thread(prio, coop, false, true, false)];
      CreateInv(cpus, old(threads), runq, limbo, t, threads[t]);
    }

    /** queue_thread(): the current thread is only flagged. */
    method QueueThread(c: nat, t: Tid)
      requires c < |cpus| && t in threads && Known(runq, threads)
      modifies this`threads, this`runq, this`cpus
      ensures threads == old(threads)[t := old(threads[t]).(queued := true)]
      ensures runq == if t == old(cpus[c]).current then old(runq) else Insert(old(runq), t, threads)
      ensures Known(old(runq), threads)
      ensures t != old(cpus[c]).current && SortedBy(old(runq), old(threads)) ==> Placed(old(runq), t, runq, threads)
      ensures cpus == if t == old(cpus[c]).current then old(cpus)[c := old(cpus[c]).(swapOk := true)] else old(cpus)
    {
      threads := threads[t := threads[t].(queued := true)];
      if SortedBy(old(runq), old(threads)) { InsertPlaced(runq, t, threads); }
      hide Placed;
      if t != cpus[c].current { runq := Insert(runq, t, threads); }
      if t == cpus[c].current { cpus := cpus[c := cpus[c].(swapOk := true)]; }
    }

    /** dequeue_thread() */
    method DequeueThread(c: nat, t: Tid)
      requires c < |cpus| && t in threads
      modifies this`threads, this`runq
      ensures threads == old(threads)[t := old(threads[t]).(queued := false)]
      ensures runq == if t == cpus[c].current then old(runq) else Omit(old(runq), t)
      ensures forall i | 0 <= i < |old(runq)| && Distinct(old(runq)) && old(runq)[i] == t && t != cpus[c].current ::
        runq == old(runq)[..i] + old(runq)[i + 1..]
    {
      forall i | 0 <= i < |runq| && Distinct(runq) && runq[i] == t ensures Omit(runq, t) == runq[..i] + runq[i + 1..] {
        OmitPlace(runq, t, i);
      }
      threads := threads[t := threads[t].(queued := false)];
      if t != cpus[c].current { runq := Omit(runq, t); }
    }

    /** next_up(), metairq priorities off. */
    method NextUp(c: nat, ghost loose: int) returns (t: Tid)
      requires c < |cpus| && Inv(cpus, threads, runq, limbo, loose) && (loose == c || loose == -1)
      requires cpus[c].current in threads && cpus[c].idle in threads
      requires loose == c ==> threads[cpus[c].current].blocked
      modifies this`threads, this`runq, this`cpus
      ensures Known(old(runq), old(threads)) && t == Choice(old(cpus[c]), old(threads), old(runq)) && t in old(threads)
      ensures Right(old(cpus[c]), old(threads), old(runq), t)
      ensures t != old(cpus[c]).current && t in old(runq) ==> t == old(runq)[0]
      ensures cpus == old(cpus)[c := old(cpus[c]).(swapOk := false)]
      ensures t == cpus[c].current ==> threads == old(threads)[t := old(threads[t]).(queued := false)] && runq == old(runq)
      ensures t != cpus[c].current ==>
        && MaySwitch(old(cpus), old(threads), old(runq), limbo, loose, c, t)
        && threads == SwitchedThreads(old(threads), cpus[c].current, cpus[c].idle, t)
        && runq == Omit(old(runq), t)
    {
      hide Inv, Insert, Omit, Right, Placed, SortedBy, Distinct;
      var current := cpus[c].current;
      QueueFacts(cpus, threads, runq, limbo, loose, c);
      ChoiceIsBest(cpus, threads, runq, limbo, loose, c);
      t := if runq == [] then cpus[c].idle else runq[0];
      var queued, active := threads[current].queued, !threads[current].blocked;
      if active {
        var cmp := threads[t].prio - threads[current].prio;
        if cmp > 0 || (cmp == 0 && !cpus[c].swapOk) { t := current; }
        if !(cpus[c].swapOk || !threads[current].coop) { t := current; }
      }
      assert t == Choice(cpus[c], threads, runq);
      if t !in runq { OmitAbsent(runq, t); }
      if t != current && active && current != cpus[c].idle && !queued { QueueThread(c, current); }
      if threads[t].queued { DequeueThread(c, t); }
      cpus := cpus[c := cpus[c].(swapOk := false)];
      assert t != current ==> threads == SwitchedThreads(old(threads), current, cpus[c].idle, t);
      assert t == current ==> threads == old(threads)[t := old(threads[t]).(queued := false)];
    }

    /** The context switch of do_swap() and of z_get_next_switch_handle(): pick the next thread,
        make it current and only then put the prev one back into the queue. */
    method Switch(c: nat, ghost loose: int) returns (next: Tid)
      requires c < |cpus| && Inv(cpus, threads, runq, limbo, loose) && (loose == c || loose == -1)
      requires cpus[c].current in threads && cpus[c].idle in threads
      requires loose == c ==> threads[cpus[c].current].blocked
      modifies this`threads, this`runq, this`cpus
      ensures Valid()
      ensures Known(old(runq), old(threads)) && next == Choice(old(cpus[c]), old(threads), old(runq)) && next in old(threads)
      ensures Right(old(cpus[c]), old(threads), old(runq), next)
      ensures cpus == old(cpus)[c := old(cpus[c]).(current := next, swapOk := false)]
      ensures threads ==
        if next == old(cpus[c]).current then old(threads)[next := old(threads[next]).(queued := false)]
        else SwitchedThreads(old(threads), old(cpus[c]).current, old(cpus[c]).idle, next)
      ensures
        var prev := old(cpus[c]).current;
        if next == prev then runq == old(runq)
        else if threads[prev].queued then
          Known(Omit(old(runq), next), threads) && runq == Insert(Omit(old(runq), next), prev, threads)
        else runq == Omit(old(runq), next)
      ensures next != old(cpus[c]).current ==> Handed(old(runq), old(cpus[c]).current, next, runq, threads)
    {
      hide Linked, Exclusive, Runs, IsIdle, Choice, QueueOk, Right, IdleLast, Handed;
      var prev := cpus[c].current;
      next := NextUp(c, loose);
      if next != prev {
        SwitchInv(old(cpus), old(threads), old(runq), limbo, loose, c, next);
        cpus := cpus[c := cpus[c].(swapOk := false)];
        cpus := cpus[c := cpus[c].(current := next)];
        assert cpus == old(cpus)[c := old(cpus[c]).(current := next, swapOk := false)];
        SwitchHands(old(cpus), old(threads), old(runq), limbo, loose, c, next);
        if threads[prev].queued { runq := Insert(runq, prev, threads); }
      } else {
        NeverLoose(old(cpus), old(threads), old(runq), limbo, loose, c);
        StaysOn(old(cpus), old(threads), old(runq), limbo, c);
        assert old(cpus[c]).(swapOk := false) == old(cpus[c]).(current := next, swapOk := false);
      }
    }

    /** thread_active_elsewhere() */
    method ActiveElsewhere(c: nat, t: Tid) returns (elsewhere: bool)
      requires c < |cpus|
      ensures Runs(cpus, t) <==> elsewhere || cpus[c].current == t
      ensures elsewhere <==> exists j :: 0 <= j < |cpus| && j != c && cpus[j].current == t
    {
      elsewhere := false;
      for i := 0 to |cpus|
        invariant elsewhere <==> exists j :: 0 <= j < i && j != c && cpus[j].current == t
      {
        if i != c && cpus[i].current == t { elsewhere := true; }
      }
    }

    /** z_ready_thread(): a thread that is current on any CPU does not enter the queue. */
    method ReadyThread(c: nat, t: Tid)
      requires Valid() && c < |cpus| && t in threads && !IsIdle(cpus, t)
      modifies this
      ensures Valid() && limbo == old(limbo) - {t}
      ensures
        var th := old(threads[t]);
        var waits := !th.queued && !th.blocked && !th.timeout;
        var added := waits && !Runs(old(cpus), t);
        var flagged := waits && t == old(cpus[c]).current;
        && threads == old(threads)[t := th.(queued := th.queued || added || flagged)]
        && Known(old(runq), threads)
        && runq == (if added then Insert(old(runq), t, threads) else old(runq))
        && (added ==> Placed(old(runq), t, runq, threads))
        && cpus == (if added || flagged then old(cpus)[c := old(cpus[c]).(swapOk := false)] else old(cpus))
      ensures !threads[t].blocked && !threads[t].timeout ==> t in runq || Runs(cpus, t)
    {
      hide Linked, Exclusive, Runs, IsIdle, QueueOk, CpuOk, Sane, Accounted, Insert, Placed, SortedBy;
      QueueFacts(cpus, threads, runq, limbo, -1, c);
      RunqSorted(cpus, threads, runq, limbo, -1);
      OthersRun(c, t);
      var elsewhere := ActiveElsewhere(c, t);
      ghost var th := threads[t].(queued := true);
      if !elsewhere && !threads[t].queued && !threads[t].blocked && !threads[t].timeout {
        if t == cpus[c].current {
          FlagsChange(cpus, threads, runq, limbo, -1, t, th, limbo - {t}, -1);
          SwapOkFrame(cpus, threads[t := th], runq, limbo - {t}, -1, c, false);
        } else {
          JoinsQueue(cpus, threads, runq, limbo, t);
          SwapOkFrame(cpus, threads[t := th], Insert(runq, t, threads[t := th]), limbo - {t}, -1, c, false);
        }
        QueueThread(c, t);
        cpus := cpus[c := cpus[c].(swapOk := false)];
        assert cpus == old(cpus)[c := old(cpus[c]).(swapOk := false)];
      } else {
        LeavesLimbo(cpus, threads, runq, limbo, t);
        assert threads == old(threads)[t := old(threads[t])];
      }
      limbo := limbo - {t};
      RunsSame(old(cpus), c, false);
      assert !IsIdle(cpus, t);
      InQueue(cpus, threads, runq, limbo, t);
    }

    lemma {:induction false} OthersRun(c: nat, t: Tid)
      requires Valid() && c < |cpus|
      ensures t == cpus[c].current ==> forall j | 0 <= j < |cpus| && cpus[j].current == t :: j == c
    {
    }

    /** A waker takes the thread off its wait queue and unlinks its timeout, leaving z_ready_thread()
        to a later section. */
    method Unpend(t: Tid)
      requires Valid() && t in threads && !IsIdle(cpus, t)
      modifies this`threads, this`limbo
      ensures Valid() && limbo == old(limbo) + {t}
      ensures threads == old(threads)[t := old(threads[t]).(blocked := false, timeout := false)]
    {
      hide Linked, Exclusive, Runs, IsIdle, QueueOk;
      FlagsChange(cpus, threads, runq, limbo, -1, t, threads[t].(blocked := false, timeout := false), limbo + {t}, -1);
      threads := threads[t := threads[t].(blocked := false, timeout := false)];
      limbo := limbo + {t};
    }

    /** k_yield() */
    method Yield(c: nat) returns (next: Tid)
      requires Valid() && c < |cpus| && cpus[c].current != cpus[c].idle
      modifies this`threads, this`runq, this`cpus
      ensures Valid()
      ensures Known(old(runq), old(threads)) && old(cpus[c]).idle in old(threads) && old(cpus[c]).current in old(threads)
      ensures next == Choice(old(cpus[c]).(swapOk := true), old(threads), old(runq)) && next in old(threads)
      ensures Right(old(cpus[c]).(swapOk := true), old(threads), old(runq), next) && next != old(cpus[c]).idle
      ensures cpus == old(cpus)[c := old(cpus[c]).(current := next, swapOk := false)]
      ensures
        var t := old(cpus[c]).current;
        if next == t then
          threads == old(threads)[t := old(threads[t]).(queued := false)] && runq == old(runq)
        else
          && threads == old(threads)[t := old(threads[t]).(queued := true)][next := old(threads[next]).(queued := false)]
          && Known(Omit(old(runq), next), threads) && runq == Insert(Omit(old(runq), next), t, threads)
          && old(runq) != [] && next == old(runq)[0] && Known(old(runq)[1..], threads) && Placed(old(runq)[1..], t, runq, threads)
    {
      hide Inv, Choice, Right, Insert, Omit;
      var t := cpus[c].current;
      YieldFlags(cpus, threads, runq, limbo, c);
      if threads[t].queued { DequeueThread(c, t); }
      QueueThread(c, t);
      cpus := cpus[c := cpus[c].(swapOk := true)];
      assert threads == old(threads)[t := old(threads[t]).(queued := true)];
      assert cpus == old(cpus)[c := old(cpus[c]).(swapOk := true)];
      next := Switch(c, -1);
      assert cpus == old(cpus)[c := old(cpus[c]).(current := next, swapOk := false)];
      YieldTables(old(threads), t, cpus[c].idle, next);
    }

    /** pend_locked() on the current thread and the switch away from it, as z_pend_curr() does
        without letting go of the scheduler lock. */
    method PendAndSwitch(c: nat, timed: bool) returns (next: Tid)
      requires Valid() && c < |cpus| && cpus[c].current != cpus[c].idle
      modifies this`threads, this`runq, this`cpus
      ensures Valid()
      ensures next == if old(runq) == [] then old(cpus[c]).idle else old(runq)[0]
      ensures cpus == old(cpus)[c := old(cpus[c]).(current := next, swapOk := false)]
      ensures old(cpus[c]).current in old(threads) && next in old(threads) && next != old(cpus[c]).current
      ensures
        var t := old(cpus[c]).current;
        && threads == old(threads)[t := old(threads[t]).(queued := false, blocked := true, timeout := timed)]
                                  [next := old(threads[next]).(queued := false)]
        && !Runs(cpus, t) && runq == if old(runq) == [] then [] else old(runq)[1..]
    {
      hide Inv, Insert, Omit, Runs, Right;
      var t := cpus[c].current;
      PendFlags(cpus, threads, runq, limbo, c, timed);
      if threads[t].queued { DequeueThread(c, t); }
      cpus := cpus[c := cpus[c].(swapOk := true)];
      threads := threads[t := threads[t].(blocked := true, timeout := timed)];
      ghost var gone := old(threads)[t := old(threads[t]).(queued := false, blocked := true, timeout := timed)];
      assert threads == gone;
      NeverLoose(cpus, threads, runq, limbo, c, c);
      next := Switch(c, c);
      assert cpus == old(cpus)[c := old(cpus[c]).(current := next, swapOk := false)];
      PendTables(gone, t, cpus[c].idle, next);
      GoneFrom(old(cpus), old(threads), old(runq), limbo, c, next);
    }

    ghost function View(): Snapshot
      reads this
    {
      Snapshot(cpus, threads, runq)
    }

    /** One step of a run, on CPU `c` where that matters; a step no caller could take does
        nothing. */
    method Perform(s: Step)
      requires Valid()
      modifies this
      ensures Valid() && HeadsTaken(old(cpus), old(runq), cpus) && Took(s, old(View()), View())
    {
      hide Inv, Runs, Known, IsIdle, Choice, Right, Insert, Omit, AboveIdle;
      match s {
        case Create(t, prio, coop) => if t !in threads && AboveIdle(cpus, threads, prio) { Create(t, prio, coop); }
        case Unpend(t) => if t in threads && !IsIdle(cpus, t) { Unpend(t); }
        case Ready(c, t) => if c < |cpus| && t in threads && !IsIdle(cpus, t) { ReadyThread(c, t); }
        case Yield(c) => if c < |cpus| && cpus[c].current != cpus[c].idle { var _ := Yield(c); }
        case Pend(c, timed) => if c < |cpus| && cpus[c].current != cpus[c].idle { var _ := PendAndSwitch(c, timed); }
        case Interrupt(c) =>
          if c < |cpus| {
            QueueFacts(cpus, threads, runq, limbo, -1, c);
            var _ := Switch(c, -1);
          }
      }
    }

    /** Any run of such steps on any number of CPUs; `trace` holds the state before the first step and
        after each.  Throughout, a CPU takes up only the head of the queue, or its idle thread when
        the queue is empty. */
    method Run(steps: seq<Step>) returns (ghost trace: seq<Snapshot>)
      requires Valid()
      modifies this
      ensures Valid()
      ensures forall i, j | 0 <= i < j < |cpus| :: cpus[i].current != cpus[j].current
      ensures forall t | t in threads :: t in runq <==> threads[t].queued && !Runs(cpus, t)
      ensures |trace| == |steps| + 1 && trace[0] == old(View()) && trace[|steps|] == View()
      ensures forall k | 0 <= k < |steps| ::
        HeadsTaken(trace[k].cpus, trace[k].runq, trace[k + 1].cpus) && Took(steps[k], trace[k], trace[k + 1])
    {
      hide Inv, HeadsTaken, Took;
      trace := [View()];
      for i := 0 to |steps|
        invariant Valid()
        invariant |trace| == i + 1 && trace[0] == old(View()) && trace[i] == View()
        invariant forall k | 0 <= k < i ::
          HeadsTaken(trace[k].cpus, trace[k].runq, trace[k + 1].cpus) && Took(steps[k], trace[k], trace[k + 1])
      {
        Perform(steps[i]);
        trace := trace + [View()];
      }
      Apart();
    }

    lemma {:induction false} Apart()
      requires Valid()
      ensures forall i, j | 0 <= i < j < |cpus| :: cpus[i].current != cpus[j].current
      ensures forall t | t in threads :: t in runq <==> threads[t].queued && !Runs(cpus, t)
    {
      hide Runs, IsIdle, CpuOk, IdleLast, Accounted;
    }
  }

  datatype Snapshot = Snapshot(cpus: seq<Cpu>, threads: Threads, runq: seq<Tid>)

  /** What each step is for: the change it makes if its caller can take it at all. */
  ghost predicate Took(s: Step, a: Snapshot, b: Snapshot) {
    match s
    case Create(t, prio, coop) =>
      t !in a.threads && AboveIdle(a.cpus, a.threads, prio) ==> b.threads == a.threads[t := Thread(prio, coop, false, true, false)]
    case Unpend(t) => t in a.threads && !IsIdle(a.cpus, t) ==> t in b.threads && !b.threads[t].blocked && !b.threads[t].timeout
    case Ready(c, t) =>
      c < |a.cpus| && t in a.threads && !IsIdle(a.cpus, t) && !a.threads[t].blocked && !a.threads[t].timeout ==>
        t in b.runq || Runs(b.cpus, t)
    case Yield(c) => Leaves(a, c) ==> Chose(a, b, c, a.cpus[c].(swapOk := true))
    case Pend(c, timed) =>
      Leaves(a, c) ==>
        var t := a.cpus[c].current;
        t in b.threads && b.threads[t].blocked && b.threads[t].timeout == timed && !Runs(b.cpus, t)
    case Interrupt(c) => c < |a.cpus| ==> Chose(a, b, c, a.cpus[c])
  }

  ghost predicate Leaves(a: Snapshot, c: nat) {
    c < |a.cpus| && a.cpus[c].current != a.cpus[c].idle
  }

  /** The CPU runs the right thread afterwards. */
  ghost predicate Chose(a: Snapshot, b: Snapshot, c: nat, cpu: Cpu) {
    && c < |b.cpus| && cpu.current in a.threads && Known(a.runq, a.threads) && b.cpus[c].current in a.threads
    && Right(cpu, a.threads, a.runq, b.cpus[c].current)
  }

  /** A CPU that changes threads takes the head of the queue, and its idle thread only if there is none. */
  ghost predicate HeadsTaken(before: seq<Cpu>, runq: seq<Tid>, after: seq<Cpu>) {
    && |after| == |before|
    && forall c | 0 <= c < |before| && after[c].current != before[c].current ::
         after[c].current == if runq == [] then before[c].idle else runq[0]
  }

  datatype Step =
    | Create(t: Tid, prio: int, coop: bool) | Unpend(t: Tid) | Ready(c: nat, t: Tid)
    | Yield(c: nat) | Pend(c: nat, timed: bool) | Interrupt(c: nat)
}
