/** The event object of kernel/events.c: a word of event bits and the threads that wait for some or
    all of a set of them.  Every method is one section under the event's lock. */
module Events {
  import opened WaitQueues

  /** What a thread waits for: these events, any of them or all. */
  datatype Want = Want(desired: bv32, all: bool)

  type Waiters = seq<Waiter<Want>>

  /** A thread that is done waiting, and what its call returns. */
  datatype Woken = Woken(tid: Tid, want: Want, value: bv32)

  /** The events of a set that are among the current ones. */
  function Common(current: bv32, desired: bv32): bv32 {
    current & desired
  }

  /** are_wait_conditions_met() */
  predicate Met(want: Want, current: bv32) {
    if want.all then Common(current, want.desired) == want.desired else Common(current, want.desired) != 0
  }

  /** What a wait may return: nothing, or all that was asked for, or some of it. */
  predicate Proper(want: Want, value: bv32) {
    value == 0 || (if want.all then value == want.desired else Common(value, want.desired) == value)
  }

  /** A word with exactly one event in it. */
  predicate Single(b: bv32) { b != 0 && b & (b - 1) == 0 }

  /** The event is in the set. */
  predicate Has(x: bv32, b: bv32) { b & x != 0 }

  lemma {:induction false} LowestBit(x: bv32)
    requires x != 0
    ensures Single(x & (0 - x)) && (x & (0 - x)) & x == x & (0 - x)
  {
  }

  lemma {:induction false} SingleIn(b: bv32, x: bv32)
    requires Single(b) && Has(x, b)
    ensures b & x == b
  {
  }

  lemma {:induction false} BothIn(b: bv32, x: bv32, y: bv32)
    requires b & x == b && b & y == b
    ensures b & (x & y) == b
  {
  }

  lemma {:induction false} InBoth(b: bv32, x: bv32, y: bv32)
    requires b & (x & y) != 0
    ensures b & x != 0 && b & y != 0
  {
  }

  /** What a wait returns are the events that are both current and asked for. */
  lemma {:induction false} CommonBits(b: bv32, current: bv32, desired: bv32)
    requires Single(b)
    ensures Has(Common(current, desired), b) <==> Has(current, b) && Has(desired, b)
  {
    if Has(current, b) && Has(desired, b) {
      SingleIn(b, current);
      SingleIn(b, desired);
      BothIn(b, current, desired);
    } else if Has(Common(current, desired), b) {
      InBoth(b, current, desired);
    }
  }

  lemma {:induction false} SomeBit(x: bv32) returns (b: bv32)
    requires x != 0
    ensures Single(b) && Has(x, b)
  {
    LowestBit(x);
    b := x & (0 - x);
  }

  lemma {:induction false} NoBit(x: bv32, b: bv32)
    requires x == 0
    ensures !Has(x, b)
  {
  }

  /** The events asked for that are not there. */
  function Lacking(current: bv32, desired: bv32): bv32 { desired & !current }

  lemma {:induction false} LackingNone(current: bv32, desired: bv32)
    requires current & desired == desired
    ensures Lacking(current, desired) == 0
  {
  }

  lemma {:induction false} LackingSome(current: bv32, desired: bv32)
    requires desired & !current == 0
    ensures current & desired == desired
  {
  }

  lemma {:induction false} LackingBits(b: bv32, current: bv32, desired: bv32)
    requires Single(b)
    ensures Has(Lacking(current, desired), b) <==> Has(desired, b) && !Has(current, b)
  {
    hide Has;
    NotBit(b, current);
    CommonBits(b, desired, !current);
  }

  lemma {:induction false} NotBit(b: bv32, x: bv32)
    requires Single(b)
    ensures Has(!x, b) <==> !Has(x, b)
  {
    if Has(x, b) {
      SingleIn(b, x);
      BitOn(b, x);
    } else {
      BitOff(b, x);
    }
  }

  lemma {:induction false} BitOn(b: bv32, x: bv32)
    requires b & x == b
    ensures b & !x == 0
  {
  }

  lemma {:induction false} BitOff(b: bv32, x: bv32)
    requires b != 0 && b & x == 0
    ensures b & !x != 0
  {
  }

  /** Event by event: waiting for any of a set is over when one of them is there, waiting for all when
      every one is. */
  lemma {:induction false} MetBits(want: Want, current: bv32)
    ensures !want.all ==> (Met(want, current) <==> exists b :: Single(b) && Has(want.desired, b) && Has(current, b))
    ensures want.all ==> (Met(want, current) <==> forall b | Single(b) && Has(want.desired, b) :: Has(current, b))
  {
    if want.all { AllMet(want.desired, current); } else { AnyMet(want.desired, current); }
    hide Single, Has, Common;
  }

  lemma {:induction false} AnyMet(desired: bv32, current: bv32)
    ensures Common(current, desired) != 0 <==> exists b :: Single(b) && Has(desired, b) && Has(current, b)
  {
    hide Single, Has, Common;
    if Common(current, desired) != 0 {
      var b := SomeBit(Common(current, desired));
      CommonBits(b, current, desired);
    } else {
      forall b | Single(b) ensures !(Has(desired, b) && Has(current, b)) {
        CommonBits(b, current, desired);
        NoBit(Common(current, desired), b);
      }
    }
  }

  lemma {:induction false} AllMet(desired: bv32, current: bv32)
    ensures Common(current, desired) == desired <==> forall b | Single(b) && Has(desired, b) :: Has(current, b)
  {
    AllLack(current, desired);
    hide Single, Has, Common, Lacking;
    if Common(current, desired) == desired {
      forall b | Single(b) && Has(desired, b) ensures Has(current, b) {
        LackingBits(b, current, desired);
        NoBit(Lacking(current, desired), b);
      }
    } else {
      var b := SomeBit(Lacking(current, desired));
      LackingBits(b, current, desired);
    }
  }

  lemma {:induction false} AllLack(current: bv32, desired: bv32)
    ensures Common(current, desired) == desired <==> Lacking(current, desired) == 0
  {
    if Common(current, desired) == desired {
      LackingNone(current, desired);
    } else if Lacking(current, desired) == 0 {
      LackingSome(current, desired);
    }
  }

  /** A proper result holds nothing that was not asked for, and all of it if all was. */
  lemma {:induction false} ProperBits(want: Want, value: bv32, b: bv32)
    requires Proper(want, value) && Single(b) && Has(value, b)
    ensures Has(want.desired, b) && (want.all ==> value == want.desired)
  {
    hide Single, Has, Common;
    CommonBits(b, value, want.desired);
    if value == 0 { NoBit(value, b); }
  }

  lemma {:induction false} CommonTwice(current: bv32, desired: bv32)
    ensures Common(Common(current, desired), desired) == Common(current, desired)
  {
  }

  lemma {:induction false} MetIsProper(want: Want, current: bv32)
    requires Met(want, current) && want.desired != 0
    ensures Proper(want, Common(current, want.desired)) && Common(current, want.desired) != 0
  {
    hide Common;
    CommonTwice(current, want.desired);
  }

  /** What a wait returned. */
  datatype Answer = Answer(want: Want, value: bv32)

  ghost predicate AllAnswered(answers: seq<Answer>) {
    forall i | 0 <= i < |answers| :: Proper(answers[i].want, answers[i].value)
  }

  ghost predicate AllProper(woken: seq<Woken>) {
    forall i | 0 <= i < |woken| :: Proper(woken[i].want, woken[i].value) && woken[i].value != 0
  }

  /** The new event word of k_event_post_internal(). */
  function Merged(current: bv32, events: bv32, mask: bv32): bv32 {
    (current & !mask) | (events & mask)
  }

  /** Posting adds events. */
  lemma {:induction false} PostAdds(current: bv32, events: bv32)
    ensures Merged(current, events, events) == current | events
  {
  }

  /** Setting replaces them. */
  lemma {:induction false} SetReplaces(current: bv32, events: bv32)
    ensures Merged(current, events, 0xFFFF_FFFF) == events
  {
  }

  /** Clearing takes events away. */
  lemma {:induction false} ClearRemoves(current: bv32, mask: bv32)
    ensures Merged(current, 0, mask) == current & !mask
  {
  }

  /** A masked set replaces the events under the mask and keeps the others. */
  lemma {:induction false} MaskedSetReplaces(current: bv32, events: bv32, mask: bv32)
    ensures Merged(current, events, mask) & mask == events & mask
    ensures Merged(current, events, mask) & !mask == current & !mask
  {
    MaskedPart(current, events, mask);
    UnmaskedPart(current, events, mask);
    hide Merged;
  }

  lemma {:induction false} MaskedPart(current: bv32, events: bv32, mask: bv32)
    ensures Merged(current, events, mask) & mask == events & mask
  {
  }

  lemma {:induction false} UnmaskedPart(current: bv32, events: bv32, mask: bv32)
    ensures Merged(current, events, mask) & !mask == current & !mask
  {
  }

  lemma {:induction false} FewerForAll(current: bv32, desired: bv32, mask: bv32)
    ensures Common(current & !mask, desired) == desired ==> Common(current, desired) == desired
  {
  }

  lemma {:induction false} FewerForAny(current: bv32, desired: bv32, mask: bv32)
    ensures Common(current, desired) == 0 ==> Common(current & !mask, desired) == 0
  {
  }

  /** Fewer events satisfy nobody new. */
  lemma {:induction false} FewerEvents(want: Want, current: bv32, mask: bv32)
    requires !Met(want, current)
    ensures !Met(want, current & !mask)
  {
    hide Common;
    FewerForAll(current, want.desired, mask);
    FewerForAny(current, want.desired, mask);
  }

  lemma {:induction false} NoEvents(want: Want)
    requires want.desired != 0
    ensures !Met(want, 0)
  {
  }

  lemma {:induction false} ZeroProper(want: Want)
    ensures Proper(want, 0)
  {
    hide Common;
  }

  // ---------------------------------------------------------------- who is woken

  function Remaining(q: Waiters, current: bv32): (r: Waiters)
    ensures forall w :: w in r <==> w in q && !Met(w.want, current)
  {
    if q == [] then []
    else if Met(q[0].want, current) then Remaining(q[1..], current)
    else [q[0]] + Remaining(q[1..], current)
  }

  /** The threads whose condition is met, in the order of the list that is built while walking the
      queue from its head: last in the queue first. */
  function Satisfied(q: Waiters, current: bv32): seq<Woken> {
    if q == [] then []
    else if Met(q[0].want, current) then
      Satisfied(q[1..], current) + [Woken(q[0].tid, q[0].want, Common(current, q[0].want.desired))]
    else Satisfied(q[1..], current)
  }

  lemma {:induction false} SatisfiedMembers(q: Waiters, current: bv32)
    ensures forall i | 0 <= i < |Satisfied(q, current)| :: Met(Satisfied(q, current)[i].want, current)
    ensures forall w | w in q && Met(w.want, current) :: Woken(w.tid, w.want, Common(current, w.want.desired)) in Satisfied(q, current)
    ensures |Satisfied(q, current)| + |Remaining(q, current)| == |q|
    decreases q
  {
    hide Common, Met;
    if q != [] { SatisfiedMembers(q[1..], current); }
  }

  /** Those still waiting keep their order; those woken come in the reverse of it. */
  lemma {:induction false} WalkOrder(q: Waiters, current: bv32, i: nat, j: nat)
    requires i < j < |q| && (Met(q[i].want, current) <==> Met(q[j].want, current))
    ensures !Met(q[i].want, current) ==> Precedes(Remaining(q, current), q[i], q[j])
    ensures Met(q[i].want, current) ==>
      Precedes(Satisfied(q, current), AsWoken(q[j], current), AsWoken(q[i], current))
    decreases q
  {
    hide Common, Met, Precedes;
    var rest := q[1..];
    assert q[j] == rest[j - 1] && q[j] in rest;
    SatisfiedMembers(rest, current);
    if i > 0 {
      assert q[i] == rest[i - 1];
      WalkOrder(rest, current, i - 1, j - 1);
    }
    if Met(q[0].want, current) {
      if Met(q[i].want, current) {
        PrecedesLast(Satisfied(rest, current), AsWoken(q[0], current), AsWoken(q[j], current), AsWoken(q[i], current), i == 0);
      }
    } else if !Met(q[i].want, current) {
      PrecedesFirst(q[0], Remaining(rest, current), q[i], q[j], i == 0);
    }
  }

  ghost function AsWoken(w: Waiter<Want>, current: bv32): Woken {
    Woken(w.tid, w.want, Common(current, w.want.desired))
  }

  lemma {:induction false} RemainingAppend(q: Waiters, w: Waiter<Want>, current: bv32)
    ensures Remaining(q + [w], current) == if Met(w.want, current) then Remaining(q, current) else Remaining(q, current) + [w]
    decreases q
  {
    hide Common, Met;
    if q == [] {
      assert q + [w] == [w] && [w][1..] == [];
    } else {
      assert (q + [w])[0] == q[0] && (q + [w])[1..] == q[1..] + [w];
      RemainingAppend(q[1..], w, current);
    }
  }

  lemma {:induction false} SatisfiedAppend(q: Waiters, w: Waiter<Want>, current: bv32)
    ensures Satisfied(q + [w], current) ==
      if Met(w.want, current) then [Woken(w.tid, w.want, Common(current, w.want.desired))] + Satisfied(q, current)
      else Satisfied(q, current)
    decreases q
  {
    hide Common, Met;
    if q == [] {
      assert q + [w] == [w] && [w][1..] == [];
    } else {
      assert (q + [w])[0] == q[0] && (q + [w])[1..] == q[1..] + [w];
      SatisfiedAppend(q[1..], w, current);
    }
  }

  lemma {:induction false} NobodySatisfied(q: Waiters, current: bv32)
    requires forall w | w in q :: !Met(w.want, current)
    ensures Satisfied(q, current) == [] && Remaining(q, current) == q
    decreases q
  {
    if q != [] { NobodySatisfied(q[1..], current); }
  }

  // ---------------------------------------------------------------- the event object

  datatype WaitResult = Returned(value: bv32) | Blocked

  class Event {
    var events: bv32
    var waiters: Waiters

    /** No pended thread's condition is met by the current events. */
    ghost predicate Valid()
      reads this
    {
      Unmet(waiters, events)
    }

    constructor ()
      ensures Valid() && events == 0 && waiters == []
    {
      events, waiters := 0, [];
    }

    /** k_event_post_internal(), for post, set, masked set and clear: all threads whose condition is
        now met are woken, and no other. */
    method PostInternal(posted: bv32, mask: bv32) returns (woken: seq<Woken>)
      requires Valid()
      modifies this
      ensures Valid() && events == Merged(old(events), posted, mask)
      ensures waiters == Remaining(old(waiters), events) && woken == Satisfied(old(waiters), events)
      ensures AllProper(woken)
    {
      hide Unmet, Merged, Remaining, Satisfied, AllProper;
      var current := Merged(events, posted, mask);
      AskForSomething(waiters, events);
      WokenProper(waiters, current);
      woken, waiters := WalkQueue(waiters, current);
      events := current;
      NobodyLeft(old(waiters), current);
    }

    /** k_event_post() adds events. */
    method Post(posted: bv32) returns (woken: seq<Woken>)
      requires Valid()
      modifies this
      ensures Valid() && events == old(events) | posted && AllProper(woken)
      ensures waiters == Remaining(old(waiters), events) && woken == Satisfied(old(waiters), events)
    {
      PostAdds(events, posted);
      woken := PostInternal(posted, posted);
    }

    /** k_event_set() replaces them. */
    method Set(posted: bv32) returns (woken: seq<Woken>)
      requires Valid()
      modifies this
      ensures Valid() && events == posted && AllProper(woken)
      ensures waiters == Remaining(old(waiters), events) && woken == Satisfied(old(waiters), events)
    {
      SetReplaces(events, posted);
      woken := PostInternal(posted, 0xFFFF_FFFF);
    }

    /** k_event_set_masked() replaces those under the mask. */
    method SetMasked(posted: bv32, mask: bv32) returns (woken: seq<Woken>)
      requires Valid()
      modifies this
      ensures Valid() && ReplacedUnder(mask, old(events), posted, events) && AllProper(woken)
      ensures waiters == Remaining(old(waiters), events) && woken == Satisfied(old(waiters), events)
    {
      hide Merged;
      MaskedSetReplaces(events, posted, mask);
      woken := PostInternal(posted, mask);
    }

    /** k_event_clear() wakes nobody. */
    method Clear(cleared: bv32)
      requires Valid()
      modifies this
      ensures Valid() && events == old(events) & !cleared && waiters == old(waiters)
    {
      hide Met, Merged;
      ClearRemoves(events, cleared);
      forall w | w in waiters ensures !Met(w.want, events & !cleared) { FewerEvents(w.want, events, cleared); }
      NobodySatisfied(waiters, events & !cleared);
      var _ := PostInternal(0, cleared);
    }

    /** k_event_wait_internal() up to the wait. */
    method Wait(t: Tid, prio: int, desired: bv32, all: bool, reset: bool, noWait: bool) returns (r: WaitResult)
      requires Valid()
      modifies this
      ensures Valid()
      ensures r.Returned? ==> Proper(Want(desired, all), r.value) && waiters == old(waiters)
      ensures r.Returned? && r.value == 0 ==> desired == 0 || noWait
      ensures desired != 0 ==>
        var now := if reset then 0 else old(events);
        && events == now
        && (Met(Want(desired, all), now) ==> r == Returned(Common(now, desired)))
        && (!Met(Want(desired, all), now) ==> if noWait then r == Returned(0) else r == Blocked)
      ensures desired == 0 ==> r == Returned(0) && events == old(events)
      ensures r == Blocked ==> waiters == Enqueue(old(waiters), Waiter(t, prio, Want(desired, all)))
    {
      hide Common, Met, Enqueue;
      if desired == 0 { return Returned(0); }
      var want := Want(desired, all);
      forall w | w in waiters ensures !Met(w.want, 0) { NoEvents(w.want); }
      ZeroProper(want);
      if reset { events := 0; }
      if Met(want, events) {
        MetIsProper(want, events);
        return Returned(Common(events, desired));
      }
      if noWait { return Returned(0); }
      EnqueueMembers(waiters, Waiter(t, prio, want));
      waiters := Enqueue(waiters, Waiter(t, prio, want));
      r := Blocked;
    }

    /** A wait ends without its events: the call returns zero. */
    method TimeOut(t: Tid) returns (value: bv32)
      requires Valid()
      modifies this`waiters
      ensures Valid() && value == 0 && waiters == Without(old(waiters), t)
    {
      WithoutMembers(waiters, t);
      waiters := Without(waiters, t);
      value := 0;
    }

    /** One step: whom it wakes, and what a wait that does not block returns. */
    method Perform(step: Step) returns (woken: seq<Woken>, answers: seq<Answer>)
      requires Valid()
      modifies this
      ensures Valid() && AllProper(woken) && AllAnswered(answers)
      ensures Took(step, old(events), old(waiters), events, waiters)
    {
      hide Common, Met, Merged, Proper, Unmet, Remaining, Satisfied, Enqueue, Without;
      woken, answers := [], [];
      match step {
        case Post(_) | Set(_) | SetMasked(_, _) | Clear(_) => woken := PerformPost(step);
        case Wait(t, prio, want, reset, noWait) =>
          var r := Wait(t, prio, want.desired, want.all, reset, noWait);
          if r.Returned? { answers := [Answer(want, r.value)]; }
        case TimeOut(t) => var _ := TimeOut(t);
      }
    }

    /** A step that changes the event word. */
    method PerformPost(step: Step) returns (woken: seq<Woken>)
      requires Valid() && !step.Wait? && !step.TimeOut?
      modifies this
      ensures Valid() && AllProper(woken)
      ensures Took(step, old(events), old(waiters), events, waiters)
    {
      hide ReplacedUnder, Common, Met, Merged, Proper, Unmet, Remaining, Satisfied, Enqueue, Without;
      woken := [];
      match step {
        case Post(posted) => woken := Post(posted);
        case Set(posted) => woken := Set(posted);
        case SetMasked(posted, mask) => woken := SetMasked(posted, mask);
        case Clear(cleared) => Clear(cleared);
      }
    }

    /** Any run of posts, sets, clears, waits and timeouts: a wait that was woken got all of what it asked
        for, or a part of it if that was enough; one that did not block got that, or zero. */
    method Run(steps: seq<Step>) returns (woken: seq<Woken>, answers: seq<Answer>, ghost trace: seq<(bv32, Waiters)>)
      requires Valid()
      modifies this
      ensures Valid()
      ensures AllProper(woken) && AllAnswered(answers)
      ensures forall w | w in waiters :: !Met(w.want, events)
      ensures |trace| == |steps| + 1 && trace[0] == (old(events), old(waiters)) && trace[|steps|] == (events, waiters)
      ensures forall k | 0 <= k < |steps| :: Took(steps[k], trace[k].0, trace[k].1, trace[k + 1].0, trace[k + 1].1)
    {
      woken, answers, trace := [], [], [(events, waiters)];
      for i := 0 to |steps|
        invariant Valid()
        invariant AllProper(woken) && AllAnswered(answers)
        invariant |trace| == i + 1 && trace[0] == (old(events), old(waiters)) && trace[i] == (events, waiters)
        invariant forall k | 0 <= k < i :: Took(steps[k], trace[k].0, trace[k].1, trace[k + 1].0, trace[k + 1].1)
      {
        hide Took, Unmet, Proper, Met, Common;
        var w, a := Perform(steps[i]);
        woken, answers := woken + w, answers + a;
        trace := trace + [(events, waiters)];
      }
    }
  }

  /** The new word is the posted one under the mask, and the old one elsewhere. */
  ghost predicate ReplacedUnder(mask: bv32, events: bv32, posted: bv32, events': bv32) {
    events' & mask == posted & mask && events' & !mask == events & !mask
  }

  /** What each step is for, on the event word and the queue. */
  ghost predicate Took(step: Step, events: bv32, q: Waiters, events': bv32, q': Waiters) {
    match step
    case Post(posted) => events' == events | posted && q' == Remaining(q, events')
    case Set(posted) => events' == posted && q' == Remaining(q, events')
    case SetMasked(posted, mask) =>
      ReplacedUnder(mask, events, posted, events') && q' == Remaining(q, events')
    case Clear(cleared) => events' == events & !cleared && q' == q
    case Wait(t, prio, want, reset, noWait) =>
      if want.desired == 0 then events' == events && q' == q
      else
        && events' == (if reset then 0 else events)
        && q' == if Met(want, events') || noWait then q else Enqueue(q, Waiter(t, prio, want))
    case TimeOut(t) => events' == events && q' == Without(q, t)
  }

  /** z_sched_waitq_walk() with event_walk_op(), and the removal of the threads on the list it builds:
      the list grows at its head. */
  method WalkQueue(q: Waiters, current: bv32) returns (head: seq<Woken>, kept: Waiters)
    ensures kept == Remaining(q, current) && head == Satisfied(q, current)
  {
    hide *;
    kept, head := [], [];
    NobodyYet(current);
    for i := 0 to |q|
      invariant kept == Remaining(q[..i], current) && head == Satisfied(q[..i], current)
    {
      RemainingAppend(q[..i], q[i], current);
      SatisfiedAppend(q[..i], q[i], current);
      assert q[..i + 1] == q[..i] + [q[i]];
      if Met(q[i].want, current) {
        head := [Woken(q[i].tid, q[i].want, Common(current, q[i].want.desired))] + head;
      } else {
        kept := kept + [q[i]];
      }
    }
    assert q[..|q|] == q;
  }

  lemma {:induction false} NobodyYet(current: bv32)
    ensures Remaining([], current) == [] && Satisfied([], current) == []
  {
  }

  ghost predicate Unmet(q: Waiters, current: bv32) {
    forall w | w in q :: w.want.desired != 0 && !Met(w.want, current)
  }

  lemma {:induction false} AskForSomething(q: Waiters, current: bv32)
    requires Unmet(q, current)
    ensures forall w | w in q :: w.want.desired != 0
  {
  }

  lemma {:induction false} NobodyLeft(q: Waiters, current: bv32)
    requires forall w | w in q :: w.want.desired != 0
    ensures Unmet(Remaining(q, current), current)
  {
    hide Met;
  }

  datatype Step =
    | Post(posted: bv32) | Set(posted: bv32) | SetMasked(posted: bv32, mask: bv32) | Clear(cleared: bv32)
    | Wait(t: Tid, prio: int, want: Want, reset: bool, noWait: bool)
    | TimeOut(t: Tid)

  lemma {:induction false} WokenProper(q: Waiters, current: bv32)
    requires forall w | w in q :: w.want.desired != 0
    ensures AllProper(Satisfied(q, current))
    decreases q
  {
    hide Common, Met, Proper;
    if q != [] {
      WokenProper(q[1..], current);
      assert q[0] in q;
      if Met(q[0].want, current) {
        MetIsProper(q[0].want, current);
        var rest, w := Satisfied(q[1..], current), Woken(q[0].tid, q[0].want, Common(current, q[0].want.desired));
        assert Satisfied(q, current) == rest + [w];
        assert forall i | 0 <= i < |rest| :: Proper(rest[i].want, rest[i].value) && rest[i].value != 0;
      }
    }
  }
}
