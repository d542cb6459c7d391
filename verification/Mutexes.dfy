/** The mutex of kernel/mutex.c: recursive ownership, hand-off to the first waiter, and priority
    inheritance with an optional ceiling.  A lower number is a higher priority.  Every method is
    one section under the mutex lock; a thread that gives up waiting runs its cleanup in a later
    section of its own. */
module Mutexes {
  import opened WaitQueues

  datatype Option<+T> = None | Some(value: T)
  datatype Unit = Unit

  type Waiters = seq<Waiter<Unit>>

  const EINVAL := 22
  const EPERM := 1
  const EAGAIN := 11

  function Higher(a: int, b: int): int {
    if a < b then a else b
  }

  /** z_get_new_prio_with_ceiling() */
  function Capped(prio: int, ceiling: int): int {
    if prio >= ceiling then prio else ceiling
  }

  /** new_prio_for_inheritance() */
  function Inherited(target: int, limit: int, ceiling: int): int {
    Capped(Higher(target, limit), ceiling)
  }

  /** What the owner's priority ought to be: the higher of its own and what the first waiter may
      lend it under the ceiling. */
  function Due(orig: int, waiters: Waiters, ceiling: int): int {
    if waiters == [] then orig else Higher(orig, Capped(waiters[0].prio, ceiling))
  }

  /** The cleanup computes what is due if and only if nobody waits or the owner's own priority is
      not above the ceiling; otherwise it leaves the owner at the ceiling, below its own. */
  lemma {:induction false} CleanupExact(orig: int, waiters: Waiters, ceiling: int)
    ensures
      var set_ := if waiters == [] then orig else Inherited(waiters[0].prio, orig, ceiling);
      && (set_ == Due(orig, waiters, ceiling) <==> waiters == [] || orig >= ceiling)
      && (waiters != [] && orig < ceiling ==> set_ == ceiling && Due(orig, waiters, ceiling) == orig)
  {
  }

  /** An owner of priority 1 under a ceiling of 2 with a waiter of priority 5: the cleanup after
      another waiter's timeout puts the owner at 2. */
  lemma {:induction false} CleanupSinksOwner()
    ensures Inherited(5, 1, 2) == 2 && Due(1, [Waiter(7, 5, Unit)], 2) == 1
  {
  }

  /** In numbers, a smaller one being a higher priority: without waiters its own priority is due; with a
      ceiling that does not bind, the smaller of its own and the first waiter's; an owner not above
      the ceiling is lent the ceiling at most; one above it is lent nothing. */
  lemma {:induction false} DueInNumbers(orig: int, waiters: Waiters, ceiling: int)
    ensures waiters == [] ==> Due(orig, waiters, ceiling) == orig
    ensures waiters != [] && ceiling <= waiters[0].prio ==>
      Due(orig, waiters, ceiling) == if waiters[0].prio < orig then waiters[0].prio else orig
    ensures waiters != [] && waiters[0].prio < ceiling <= orig ==> Due(orig, waiters, ceiling) == ceiling
    ensures orig < ceiling ==> Due(orig, waiters, ceiling) == orig
  {
  }

  // ---------------------------------------------------------------- the waiters

  ghost predicate Distinct(q: Waiters) {
    forall i, j | 0 <= i < j < |q| :: q[i].tid != q[j].tid
  }

  predicate Has(q: Waiters, t: Tid) {
    exists i :: 0 <= i < |q| && q[i].tid == t
  }

  lemma {:induction false} EnqueueDistinct(q: Waiters, w: Waiter<Unit>)
    requires Distinct(q) && !Has(q, w.tid)
    ensures Distinct(Enqueue(q, w))
  {
    hide Enqueue;
    EnqueueAt(q, w);
    var i, r := Slot(q, w.prio), Enqueue(q, w);
    assert forall k | 0 <= k < |r| :: r[k] == if k < i then q[k] else if k == i then w else q[k - 1];
  }

  lemma {:induction false} WithoutDistinct(q: Waiters, t: Tid)
    requires Distinct(q)
    ensures Distinct(Without(q, t)) && !Has(Without(q, t), t)
    ensures forall x :: x in Without(q, t) <==> x in q && x.tid != t
    decreases q
  {
    if q != [] {
      var rest := q[1..];
      assert forall i | 0 <= i < |rest| :: rest[i] == q[i + 1];
      WithoutDistinct(rest, t);
      var r := Without(rest, t);
      forall i | 0 <= i < |r| ensures r[i].tid != q[0].tid { assert r[i] in rest; }
    }
  }

  // ---------------------------------------------------------------- the mutex

  class Mutex {
    const ceiling: int
    var owner: Option<Tid>
    var lockCount: nat
    var ownerOrigPrio: int
    var waiters: Waiters
    /** The present priority of every thread. */
    var prio: map<Tid, int>
    /** The threads that have stopped waiting without getting the mutex and have not yet run the
        cleanup that follows. */
    var late: set<Tid>
    /** The priority every thread has of its own. */
    ghost var own: map<Tid, int>

    ghost predicate Waiting()
      reads this`owner, this`waiters, this`prio, this`late, this`own
    {
      && Distinct(waiters) && Sorted(waiters) && prio.Keys == own.Keys && late <= prio.Keys
      && (forall i | 0 <= i < |waiters| ::
            waiters[i].tid in prio && waiters[i].prio == own[waiters[i].tid] && Some(waiters[i].tid) != owner && waiters[i].tid !in late)
      && (forall t | t in prio && Some(t) != owner :: prio[t] == own[t])
    }

    /** With the owner's own priority under the ceiling, the owner has at least the priority it is
        due, and exactly that once every late thread has cleaned up; an owner above the ceiling is
        never lent anything. */
    ghost predicate Inherits()
      reads this`owner, this`ownerOrigPrio, this`waiters, this`prio, this`late, this`own
    {
      owner.Some? ==>
        && owner.value in prio && owner.value in own && owner.value !in late
        && ownerOrigPrio == own[owner.value]
        && (if ownerOrigPrio >= ceiling then
              && prio[owner.value] <= Due(ownerOrigPrio, waiters, ceiling)
              && (late == {} ==> prio[owner.value] == Due(ownerOrigPrio, waiters, ceiling))
            else prio[owner.value] == ownerOrigPrio || prio[owner.value] == ceiling)
    }

    ghost predicate Valid()
      reads this
    {
      && (owner == None <==> lockCount == 0)
      && (owner == None ==> waiters == [])
      && Waiting()
      && Inherits()
    }

    /** The thread is running: it is not waiting for the mutex, nor on its way out. */
    predicate Free(t: Tid)
      reads this
    {
      t in prio && !Has(waiters, t) && t !in late
    }

    /** k_mutex_init() */
    constructor (ceiling: int, prio: map<Tid, int>)
      ensures Valid() && owner == None && this.ceiling == ceiling && this.prio == prio && own == prio && late == {}
    {
      this.ceiling := ceiling;
      owner, lockCount, ownerOrigPrio, waiters := None, 0, 0, [];
      this.prio, late, own := prio, {}, prio;
    }

    /** k_mutex_lock() up to the wait.  Blocked means that the thread now waits. */
    method Lock(t: Tid, noWait: bool) returns (r: LockResult)
      requires Valid() && Free(t)
      modifies this`owner, this`lockCount, this`ownerOrigPrio, this`waiters, this`prio
      ensures Valid()
      ensures r == if old(owner) == None || old(owner) == Some(t) then Locked else if noWait then Refused else Blocked
      ensures r == Locked ==> owner == Some(t) && lockCount == old(lockCount) + 1 && waiters == old(waiters) && prio == old(prio)
      ensures r == Locked && old(owner) == Some(t) ==> ownerOrigPrio == old(ownerOrigPrio)
      ensures r == Refused ==> owner == old(owner) && lockCount == old(lockCount) && waiters == old(waiters) && prio == old(prio)
      ensures r == Blocked ==>
        && owner == old(owner) && lockCount == old(lockCount) && ownerOrigPrio == old(ownerOrigPrio)
        && waiters == Enqueue(old(waiters), Waiter(t, own[t], Unit))
        && owner.value in old(prio)
        && prio == old(prio)[owner.value := Higher(old(prio)[owner.value], Inherited(old(prio)[t], old(prio)[owner.value], ceiling))]
    {
      if lockCount == 0 || owner == Some(t) {
        ownerOrigPrio := if lockCount == 0 then prio[t] else ownerOrigPrio;
        lockCount := lockCount + 1;
        owner := Some(t);
        return Locked;
      }
      if noWait { return Refused; }
      var o := owner.value;
      var newPrio := Inherited(prio[t], prio[o], ceiling);
      ghost var w := Waiter(t, own[t], Unit);
      EnqueueSorted(waiters, w);
      EnqueueDistinct(waiters, w);
      EnqueueMembers(waiters, w);
      Boost(ownerOrigPrio, waiters, w, prio[o], ceiling);
      hide Enqueue, Inherited, Due, Capped, Sorted, Distinct;
      if newPrio < prio[o] { prio := prio[o := newPrio]; }
      waiters := Enqueue(waiters, Waiter(t, prio[t], Unit));
      r := Blocked;
      forall i | 0 <= i < |waiters| ensures waiters[i] in old(waiters) || waiters[i] == w { assert waiters[i] in waiters; }
    }

    /** The wait times out, or the thread is woken some other way. */
    method GiveUp(t: Tid)
      requires Valid() && Has(waiters, t)
      modifies this`waiters, this`late
      ensures Valid() && late == old(late) + {t} && waiters == Without(old(waiters), t)
    {
      WithoutSorted(waiters, t);
      WithoutDistinct(waiters, t);
      WithoutHead(waiters, t);
      waiters := Without(waiters, t);
      late := late + {t};
    }

    /** The rest of k_mutex_lock() after an unsuccessful wait. */
    method Cleanup(t: Tid) returns (code: int)
      requires Valid() && t in late
      modifies this`prio, this`late
      ensures Valid() && code == -EAGAIN && late == old(late) - {t}
      ensures owner.Some? ==>
        (prio[owner.value] == Due(ownerOrigPrio, waiters, ceiling) <==> waiters == [] || ownerOrigPrio >= ceiling)
      ensures prio ==
        if owner == None then old(prio)
        else old(prio)[owner.value := if waiters == [] then ownerOrigPrio else Inherited(waiters[0].prio, ownerOrigPrio, ceiling)]
    {
      if owner.Some? {
        var newPrio := if waiters != [] then Inherited(waiters[0].prio, ownerOrigPrio, ceiling) else ownerOrigPrio;
        if prio[owner.value] != newPrio { prio := prio[owner.value := newPrio]; }
        CleanupExact(ownerOrigPrio, waiters, ceiling);
      }
      late := late - {t};
      code := -EAGAIN;
    }

    /** k_mutex_unlock() */
    method Unlock(t: Tid) returns (code: int)
      requires Valid() && Free(t)
      modifies this`owner, this`lockCount, this`ownerOrigPrio, this`waiters, this`prio
      ensures Valid()
      ensures code == if old(owner) == None then -EINVAL else if old(owner) != Some(t) then -EPERM else 0
      ensures code != 0 ==> owner == old(owner) && lockCount == old(lockCount) && waiters == old(waiters) && prio == old(prio)
      ensures code == 0 && old(lockCount) > 1 ==>
        owner == old(owner) && lockCount == old(lockCount) - 1 && waiters == old(waiters) && prio == old(prio)
      ensures code == 0 && old(lockCount) == 1 ==> prio == old(prio)[t := own[t]]
      ensures code == 0 && old(lockCount) == 1 && old(waiters) == [] ==> owner == None && waiters == []
      ensures code == 0 && old(lockCount) == 1 && old(waiters) != [] ==>
        owner == Some(old(waiters)[0].tid) && lockCount == 1 && waiters == old(waiters)[1..]
    {
      if owner == None { return -EINVAL; }
      if owner != Some(t) { return -EPERM; }
      code := 0;
      if lockCount > 1 {
        lockCount := lockCount - 1;
        return;
      }
      if prio[t] != ownerOrigPrio { prio := prio[t := ownerOrigPrio]; }
      if waiters != [] {
        var next := waiters[0].tid;
        waiters := waiters[1..];
        owner := Some(next);
        ownerOrigPrio := prio[next];
      } else {
        owner := None;
        lockCount := 0;
      }
    }

    ghost function View(): Snapshot
      reads this
    {
      Snapshot(owner, lockCount, waiters, prio, late)
    }

    /** One call, or one wait that ends; a call that its thread could not make is passed over. */
    method Perform(step: Step)
      requires Valid()
      modifies this`owner, this`lockCount, this`ownerOrigPrio, this`waiters, this`prio, this`late
      ensures Valid() && Took(step, old(View()), View())
    {
      hide Waiting, Inherits, Due, Inherited, Enqueue, Without;
      match step {
        case Lock(t, noWait) => if Free(t) { var _ := Lock(t, noWait); }
        case GiveUp(t) => if Has(waiters, t) { GiveUp(t); }
        case Cleanup(t) => if t in late { var _ := Cleanup(t); }
        case Unlock(t) => if Free(t) { var _ := Unlock(t); }
      }
    }

    /** Any run of lock calls, timeouts, cleanups and unlock calls by any threads; `trace` holds the state
        before the first step and after each. */
    method Run(steps: seq<Step>) returns (ghost trace: seq<Snapshot>)
      requires Valid()
      modifies this`owner, this`lockCount, this`ownerOrigPrio, this`waiters, this`prio, this`late
      ensures Valid()
      ensures owner == None <==> lockCount == 0
      ensures owner == None ==> waiters == []
      ensures late == {} && owner.Some? && ownerOrigPrio >= ceiling ==>
        && owner.value in prio
        && prio[owner.value] == Due(own[owner.value], waiters, ceiling)
      ensures |trace| == |steps| + 1 && trace[0] == old(View()) && trace[|steps|] == View()
      ensures forall k | 0 <= k < |steps| :: Took(steps[k], trace[k], trace[k + 1])
    {
      trace := [View()];
      for i := 0 to |steps|
        invariant Valid()
        invariant |trace| == i + 1 && trace[0] == old(View()) && trace[i] == View()
        invariant forall k | 0 <= k < i :: Took(steps[k], trace[k], trace[k + 1])
      {
        hide Took, Waiting, Inherits;
        Perform(steps[i]);
        trace := trace + [View()];
      }
    }
  }

  datatype Snapshot = Snapshot(owner: Option<Tid>, lockCount: nat, waiters: Waiters, prio: map<Tid, int>, late: set<Tid>)

  /** What each step is for: the change it makes if its thread can take it at all. */
  ghost predicate Took(step: Step, a: Snapshot, b: Snapshot) {
    match step
    case Lock(t, noWait) =>
      t in a.prio && !Has(a.waiters, t) && t !in a.late ==>
        if a.owner == None || a.owner == Some(t) then b.owner == Some(t) && b.lockCount == a.lockCount + 1 && b.waiters == a.waiters
        else b.owner == a.owner && b.lockCount == a.lockCount && if noWait then b.waiters == a.waiters else Joins(t, a.waiters, b.waiters)
    case GiveUp(t) => Has(a.waiters, t) ==> b.waiters == Without(a.waiters, t) && b.late == a.late + {t} && b.owner == a.owner
    case Cleanup(t) => t in a.late ==> b.late == a.late - {t} && b.owner == a.owner
    case Unlock(t) =>
      t in a.prio && !Has(a.waiters, t) && t !in a.late && a.owner == Some(t) ==>
        if a.lockCount > 1 then b.owner == a.owner && b.lockCount == a.lockCount - 1
        else if a.waiters == [] then b.owner == None
        else b.owner == Some(a.waiters[0].tid) && b.waiters == a.waiters[1..]
  }

  ghost predicate Joins(t: Tid, q: Waiters, r: Waiters) {
    exists p: int :: r == Enqueue(q, Waiter(t, p, Unit))
  }

  datatype LockResult = Locked | Refused | Blocked

  datatype Step = Lock(t: Tid, noWait: bool) | GiveUp(t: Tid) | Cleanup(t: Tid) | Unlock(t: Tid)

  lemma {:induction false} EnqueueHead(q: Waiters, w: Waiter<Unit>)
    ensures Enqueue(q, w) != []
    ensures Enqueue(q, w)[0].prio == if q == [] then w.prio else Higher(w.prio, q[0].prio)
  {
  }

  /** Contention: lending the newcomer's priority under the ceiling keeps what was due, due. */
  lemma {:induction false} Boost(orig: int, q: Waiters, w: Waiter<Unit>, prio: int, ceiling: int)
    ensures
      var newPrio := Inherited(w.prio, prio, ceiling);
      var raised := if newPrio < prio then newPrio else prio;
      && (orig >= ceiling && prio <= Due(orig, q, ceiling) ==> raised <= Due(orig, Enqueue(q, w), ceiling))
      && (orig >= ceiling && prio == Due(orig, q, ceiling) ==> raised == Due(orig, Enqueue(q, w), ceiling))
      && (prio <= ceiling ==> raised == prio)
  {
    EnqueueHead(q, w);
  }

  lemma {:induction false} WithoutHead(q: Waiters, t: Tid)
    requires Sorted(q)
    ensures Without(q, t) != [] ==> q != [] && q[0].prio <= Without(q, t)[0].prio
  {
    WithoutSorted(q, t);
    if Without(q, t) != [] {
      assert Without(q, t)[0] in q;
      var k :| 0 <= k < |q| && q[k] == Without(q, t)[0];
    }
  }
}
