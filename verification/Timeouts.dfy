/** The kernel's timeout queue (kernel/timeout.c) and the timers built on it (kernel/timer.c).

    The code keeps pending timeouts in a list whose nodes store the distance in ticks to the
    node before.  The reference here is an `Agenda`: a plain map from a timeout to its absolute
    deadline and the order in which it was armed.  `TimeoutQueue` is the code; its `Valid`
    says that the delta list is the agenda sorted by deadline, first armed first.
  */
module Timeouts {

  // ---------------------------------------------------------------- timeout values

  type Id = nat

  const K_TICKS_FOREVER := -1
  const K_NO_WAIT := 0
  const INT_MAX := 0x7fff_ffff

  function Max(a: int, b: int): int { if a > b then a else b }

  /** Absolute deadlines are packed below K_TICKS_FOREVER; the packing is its own inverse. */
  function TickAbs(t: int): int { K_TICKS_FOREVER - 1 - t }

  function AbsTicks(t: int): int { TickAbs(Max(t, 0)) }

  // ---------------------------------------------------------------- the reference: an agenda

  datatype Armed = Armed(due: int, serial: nat)

  datatype Timer = Timer(period: int, status: nat)

  /** `serial` numbers every arming, so that ties on the deadline can be ordered. */
  datatype Agenda = Agenda(now: nat, armed: map<Id, Armed>, serial: nat, timers: map<Id, Timer>)

  ghost predicate WellFormed(a: Agenda) {
    && (forall id | id in a.armed :: a.armed[id].due >= a.now && a.armed[id].serial < a.serial)
    && (forall x, y | x in a.armed && y in a.armed && x != y :: a.armed[x].serial != a.armed[y].serial)
  }

  /** Between announcements nothing is due at the current tick. */
  ghost predicate Quiescent(a: Agenda) {
    WellFormed(a) && forall id | id in a.armed :: a.armed[id].due > a.now
  }

  predicate Before(x: Armed, y: Armed) {
    x.due < y.due || (x.due == y.due && x.serial < y.serial)
  }

  /** The tick at which a timeout armed at `now` expires. */
  function Deadline(now: nat, ticks: int, elapsed: nat): (due: int)
    requires ticks != K_TICKS_FOREVER
    ensures due > now
  {
    if TickAbs(ticks) >= 0 then now + Max(1, TickAbs(ticks) - now) else now + (ticks + 1 + elapsed)
  }

  // ---------------------------------------------------------------- what callers may do

  /** What a caller does to the queue.  `hw` is the sys_clock_elapsed() reading the call would get. */
  datatype Cmd =
    | Add(id: Id, ticks: int, hw: nat)                       // z_add_timeout
    | Abort(id: Id)                                          // z_abort_timeout
    | Start(id: Id, duration: int, period: int, hw: nat)     // k_timer_start
    | Expire(id: Id, hw: nat)                                // z_timer_expiration_handler

  datatype Event =
    | Fired(id: Id, at: Armed)
    | Disarmed(id: Id, at: Armed)
    | Rearmed(id: Id, elapsed: nat)

  datatype Outcome = Outcome(agenda: Agenda, log: seq<Event>)

  /** elapsed(): inside an announcement that still has ticks to hand out, no time has passed. */
  function Elapsed(remaining: int, hw: nat): nat { if remaining == 0 then hw else 0 }

  function Arm(a: Agenda, id: Id, ticks: int, elapsed: nat): (b: Agenda) {
    if ticks == K_TICKS_FOREVER || id in a.armed then a
    else a.(armed := a.armed[id := Armed(Deadline(a.now, ticks, elapsed), a.serial)], serial := a.serial + 1)
  }

  function Disarm(a: Agenda, id: Id): (o: Outcome) {
    if id in a.armed then Outcome(a.(armed := a.armed - {id}), [Disarmed(id, a.armed[id])])
    else Outcome(a, [])
  }

  function FirstDelay(duration: int): int {
    if TickAbs(duration) < 0 then Max(duration - 1, 0) else duration
  }

  predicate Repeats(period: int) { period != K_NO_WAIT && period != K_TICKS_FOREVER }

  /** The effect of one call on the agenda, `remaining` being announce_remaining at that moment.
      z_add_timeout must not be given a linked timeout; such calls are dropped. */
  function Apply(a: Agenda, remaining: int, c: Cmd): (o: Outcome) {
    match c
    case Add(id, ticks, hw) => Outcome(Arm(a, id, ticks, Elapsed(remaining, hw)), [])
    case Abort(id) => Disarm(a, id)
    case Start(id, duration, period, hw) =>
      if duration == K_TICKS_FOREVER then Outcome(a, [])
      else
        var o := Disarm(a, id);
        var b := o.agenda.(timers := a.timers[id := Timer(period, 0)]);
        Outcome(Arm(b, id, FirstDelay(duration), Elapsed(remaining, hw)), o.log)
    case Expire(id, hw) =>
      if id in a.armed || id !in a.timers then Outcome(a, [])
      else
        var t := a.timers[id];
        var b := a.(timers := a.timers[id := t.(status := t.status + 1)]);
        var e := Elapsed(remaining, hw);
        if !Repeats(t.period) then Outcome(b, [])
        else Outcome(Arm(b, id, AbsTicks(a.now + e + 1 + Max(t.period - 1, 0)), e), [Rearmed(id, e)])
  }

  // What the calls come to, in ticks.

  /** z_add_timeout(): a relative timeout lasts at least as long as asked for, counted from the next tick
      boundary; an absolute one expires at its tick, or at the next one if that is past. */
  lemma {:induction false} AddDue(a: Agenda, remaining: int, id: Id, ticks: int, hw: nat)
    requires id !in a.armed
    ensures var b := Apply(a, remaining, Add(id, ticks, hw)).agenda;
      if ticks == -1 then b == a
      else
        && b.armed.Keys == a.armed.Keys + {id} && (forall x | x in a.armed :: b.armed[x] == a.armed[x])
        && b.now == a.now && b.timers == a.timers
        && (ticks >= 0 ==> b.armed[id].due == a.now + (if remaining == 0 then hw else 0) + ticks + 1)
        && (ticks < -1 ==> b.armed[id].due == if -2 - ticks > a.now then -2 - ticks else a.now + 1)
  {
  }

  /** k_timer_start(): a relative duration is counted from the current tick, and is one tick at least; an
      absolute one ends at its tick, or at the next one if that is past. */
  lemma {:induction false} StartDue(a: Agenda, remaining: int, id: Id, duration: int, period: int, hw: nat)
    ensures var b := Apply(a, remaining, Start(id, duration, period, hw)).agenda;
      if duration == -1 then b == a
      else
        && b.armed.Keys == a.armed.Keys + {id} && (forall x | x in a.armed && x != id :: b.armed[x] == a.armed[x])
        && b.now == a.now && b.timers == a.timers[id := Timer(period, 0)]
        && (duration >= 0 ==>
              b.armed[id].due == a.now + (if remaining == 0 then hw else 0) + (if duration > 1 then duration else 1))
        && (duration < -1 ==> b.armed[id].due == if -2 - duration > a.now then -2 - duration else a.now + 1)
  {
  }

  /** z_timer_expiration_handler(): the expiry is counted; a timer with a period is armed again that many
      ticks later, at least one, and any other is not. */
  lemma {:induction false} ExpireDue(a: Agenda, remaining: int, id: Id, hw: nat)
    requires id !in a.armed && id in a.timers
    ensures var t, o := a.timers[id], Apply(a, remaining, Expire(id, hw)); var b := o.agenda;
      && b.now == a.now && b.timers == a.timers[id := Timer(t.period, t.status + 1)]
      && (forall x | x in a.armed :: x in b.armed && b.armed[x] == a.armed[x])
      && (if t.period == 0 || t.period == -1 then b.armed == a.armed
          else
            && b.armed.Keys == a.armed.Keys + {id}
            && b.armed[id].due ==
                 a.now + (if remaining == 0 then hw else 0) + (if t.period > 1 then t.period else 1))
  {
  }

  /** z_abort_timeout() */
  lemma {:induction false} AbortOff(a: Agenda, remaining: int, id: Id)
    ensures var o := Apply(a, remaining, Abort(id));
      && o.agenda.now == a.now && o.agenda.timers == a.timers && o.agenda.armed == a.armed - {id}
      && o.log == if id in a.armed then [Disarmed(id, a.armed[id])] else []
  {
  }

  function ApplyAll(a: Agenda, remaining: int, cs: seq<Cmd>): (o: Outcome)
    decreases cs
  {
    if cs == [] then Outcome(a, [])
    else
      var o := Apply(a, remaining, cs[0]);
      var rest := ApplyAll(o.agenda, remaining, cs[1..]);
      Outcome(rest.agenda, o.log + rest.log)
  }

  /** Time stands still while callers act; whatever they arm lies strictly in the future. */
  ghost predicate OnlyFuture(a: Agenda, b: Agenda) {
    && b.now == a.now && b.serial >= a.serial
    && (forall id | id in b.armed ::
          || (id in a.armed && a.armed[id] == b.armed[id])
          || (b.armed[id].due > b.now && b.armed[id].serial >= a.serial))
  }

  lemma {:induction false} ArmFuture(a: Agenda, id: Id, ticks: int, elapsed: nat)
    requires WellFormed(a)
    ensures WellFormed(Arm(a, id, ticks, elapsed)) && OnlyFuture(a, Arm(a, id, ticks, elapsed))
  {
  }

  lemma {:induction false} DisarmFuture(a: Agenda, id: Id)
    requires WellFormed(a)
    ensures WellFormed(Disarm(a, id).agenda) && OnlyFuture(a, Disarm(a, id).agenda)
  {
  }

  lemma {:induction false} OnlyFutureChains(a: Agenda, b: Agenda, c: Agenda)
    requires OnlyFuture(a, b) && OnlyFuture(b, c)
    ensures OnlyFuture(a, c)
  {
  }

  lemma {:induction false} ApplyFuture(a: Agenda, remaining: int, c: Cmd)
    requires WellFormed(a)
    ensures WellFormed(Apply(a, remaining, c).agenda)
    ensures OnlyFuture(a, Apply(a, remaining, c).agenda)
  {
    hide WellFormed, OnlyFuture, Arm, Disarm;
    match c
    case Add(id, ticks, hw) => ArmFuture(a, id, ticks, Elapsed(remaining, hw));
    case Abort(id) => DisarmFuture(a, id);
    case Start(id, duration, period, hw) => StartFuture(a, remaining, c);
    case Expire(id, hw) => ExpireFuture(a, remaining, c);
  }

  lemma {:induction false} RetimedFuture(a: Agenda, timers: map<Id, Timer>)
    requires WellFormed(a)
    ensures WellFormed(a.(timers := timers)) && OnlyFuture(a, a.(timers := timers))
  {
  }

  lemma {:induction false} ExpireFuture(a: Agenda, remaining: int, c: Cmd)
    requires WellFormed(a) && c.Expire?
    ensures WellFormed(Apply(a, remaining, c).agenda)
    ensures OnlyFuture(a, Apply(a, remaining, c).agenda)
  {
    hide WellFormed, OnlyFuture, Arm, AbsTicks, Max;
    RetimedFuture(a, a.timers);
    if c.id !in a.armed && c.id in a.timers {
      var t := a.timers[c.id];
      var e := Elapsed(remaining, c.hw);
      var timers := a.timers[c.id := t.(status := t.status + 1)];
      var ticks := AbsTicks(a.now + e + 1 + Max(t.period - 1, 0));
      RetimedFuture(a, timers);
      ArmFuture(a.(timers := timers), c.id, ticks, e);
      OnlyFutureChains(a, a.(timers := timers), Arm(a.(timers := timers), c.id, ticks, e));
    }
  }

  lemma {:induction false} StartFuture(a: Agenda, remaining: int, c: Cmd)
    requires WellFormed(a) && c.Start?
    ensures WellFormed(Apply(a, remaining, c).agenda)
    ensures OnlyFuture(a, Apply(a, remaining, c).agenda)
  {
    hide WellFormed, OnlyFuture, Arm, Disarm;
    RetimedFuture(a, a.timers);
    DisarmFuture(a, c.id);
    var off := Disarm(a, c.id).agenda;
    var timers := a.timers[c.id := Timer(c.period, 0)];
    RetimedFuture(off, timers);
    ArmFuture(off.(timers := timers), c.id, FirstDelay(c.duration), Elapsed(remaining, c.hw));
    OnlyFutureChains(a, off, off.(timers := timers));
    OnlyFutureChains(a, off.(timers := timers),
                     Arm(off.(timers := timers), c.id, FirstDelay(c.duration), Elapsed(remaining, c.hw)));
  }

  lemma {:induction false} ApplyAllFuture(a: Agenda, remaining: int, cs: seq<Cmd>)
    requires WellFormed(a)
    ensures WellFormed(ApplyAll(a, remaining, cs).agenda)
    ensures OnlyFuture(a, ApplyAll(a, remaining, cs).agenda)
    decreases cs
  {
    if cs != [] {
      var b := Apply(a, remaining, cs[0]).agenda;
      ApplyFuture(a, remaining, cs[0]);
      ApplyAllFuture(b, remaining, cs[1..]);
      OnlyFutureChains(a, b, ApplyAll(b, remaining, cs[1..]).agenda);
    }
  }

  // ---------------------------------------------------------------- announcing ticks, on the agenda

  /** What the handlers, and whatever else runs while the lock is released around them, do:
      the calls made during the k-th handler of an announcement, for timeout `id` at tick `now`. */
  type Script = (nat, Id, nat) -> seq<Cmd>

  ghost predicate IsEarliest(m: map<Id, Armed>, id: Id) {
    id in m && forall x | x in m && x != id :: Before(m[id], m[x])
  }

  lemma {:induction false} EarliestExists(a: Agenda, ids: set<Id>) returns (id: Id)
    requires WellFormed(a) && ids != {} && ids <= a.armed.Keys
    ensures id in ids && forall x | x in ids && x != id :: Before(a.armed[id], a.armed[x])
    decreases ids
  {
    id :| id in ids;
    if ids != {id} {
      assert ids == (ids - {id}) + {id};
      var best := EarliestExists(a, ids - {id});
      if Before(a.armed[best], a.armed[id]) { id := best; }
    }
  }

  ghost function Earliest(a: Agenda): (id: Id)
    requires WellFormed(a) && |a.armed| > 0
    ensures IsEarliest(a.armed, id)
  {
    assert exists id :: IsEarliest(a.armed, id) by {
      assert |a.armed.Keys| == |a.armed|;
      var first := EarliestExists(a, a.armed.Keys);
      assert IsEarliest(a.armed, first);
    }
    var id :| IsEarliest(a.armed, id);
    id
  }

  ghost function DueNow(a: Agenda): set<Id> { set id | id in a.armed && a.armed[id].due <= a.now }

  ghost predicate AnyDue(a: Agenda, end: nat) { exists id :: id in a.armed && a.armed[id].due <= end }

  /** The agenda with its earliest timeout taken off and the clock moved to it. */
  ghost function Take(a: Agenda): (b: Agenda)
    requires WellFormed(a) && |a.armed| > 0
    ensures WellFormed(b) && b.now >= a.now
  {
    var id := Earliest(a);
    a.(now := a.armed[id].due, armed := a.armed - {id})
  }

  ghost function AfterHandler(a: Agenda, end: nat, k: nat, script: Script): (o: Outcome)
    requires WellFormed(a) && |a.armed| > 0
  {
    ApplyAll(Take(a), end - a.now, script(k, Earliest(a), Take(a).now))
  }

  /** Every handler either moves the clock forward or leaves fewer timeouts due at this tick,
      whatever it arms: this is why the announcement loop ends. */
  lemma {:induction false} HandlerProgress(a: Agenda, end: nat, k: nat, script: Script)
    requires WellFormed(a) && AnyDue(a, end)
    ensures |a.armed| > 0 && WellFormed(AfterHandler(a, end, k, script).agenda)
    ensures var b := AfterHandler(a, end, k, script).agenda;
      && a.now <= b.now <= end
      && (b.now == a.now ==> |DueNow(b)| < |DueNow(a)|)
  {
    var x :| x in a.armed && a.armed[x].due <= end;
    assert x in a.armed.Keys && |a.armed.Keys| == |a.armed|;
    var id := Earliest(a);
    var t := Take(a);
    ApplyAllFuture(t, end - a.now, script(k, id, t.now));
    var b := AfterHandler(a, end, k, script).agenda;
    if b.now == a.now {
      assert id in DueNow(a) && id !in DueNow(b);
      assert DueNow(b) <= DueNow(a) - {id};
      SubsetSize(DueNow(b), DueNow(a) - {id});
    }
  }

  lemma {:induction false} SubsetSize<T>(x: set<T>, y: set<T>)
    requires x <= y
    ensures |x| <= |y|
    decreases x
  {
    if x != {} {
      var e :| e in x;
      SubsetSize(x - {e}, y - {e});
    }
  }

  /** An announcement up to tick `end`: fire the earliest timeout that is due, let its handler
      act, and go on until nothing is due any more. */
  ghost function Announced(a: Agenda, end: nat, k: nat, script: Script): (o: Outcome)
    requires WellFormed(a) && a.now <= end
    decreases end - a.now, |DueNow(a)|
  {
    if !AnyDue(a, end) then Outcome(a.(now := end), [])
    else
      HandlerProgress(a, end, k, script);
      var id := Earliest(a);
      var o := AfterHandler(a, end, k, script);
      var rest := Announced(o.agenda, end, k + 1, script);
      Outcome(rest.agenda, [Fired(id, a.armed[id])] + o.log + rest.log)
  }

  // ---------------------------------------------------------------- what an announcement guarantees

  ghost predicate FiredIn(log: seq<Event>, id: Id, at: Armed) { Fired(id, at) in log }

  ghost predicate DisarmedIn(log: seq<Event>, id: Id, at: Armed) { Disarmed(id, at) in log }

  /** The firings of a log, in order. */
  function Firings(log: seq<Event>): (f: seq<Armed>) {
    if log == [] then []
    else (match log[0] case Fired(_, at) => [at] case _ => []) + Firings(log[1..])
  }

  lemma {:induction false} FiringsConcat(x: seq<Event>, y: seq<Event>)
    ensures Firings(x + y) == Firings(x) + Firings(y)
    decreases x
  {
    if x == [] {
      assert x + y == y;
    } else {
      assert (x + y)[0] == x[0] && (x + y)[1..] == x[1..] + y;
      FiringsConcat(x[1..], y);
    }
  }

  lemma {:induction false} ApplyAllFiresNothing(a: Agenda, remaining: int, cs: seq<Cmd>)
    ensures forall e | e in ApplyAll(a, remaining, cs).log :: !e.Fired?
    ensures Firings(ApplyAll(a, remaining, cs).log) == []
    decreases cs
  {
    if cs != [] {
      var o := Apply(a, remaining, cs[0]);
      ApplyAllFiresNothing(o.agenda, remaining, cs[1..]);
      assert o.log == [] || o.log == [o.log[0]];
      FiringsConcat(o.log, ApplyAll(o.agenda, remaining, cs[1..]).log);
    }
  }

  ghost predicate SortedFirings(f: seq<Armed>) {
    forall i, j | 0 <= i < j < |f| :: Before(f[i], f[j])
  }

  /** A firing that may still come: of a timeout armed now, or of one a handler will arm later. */
  ghost predicate MayFire(a: Agenda, x: Armed) {
    (exists id :: id in a.armed && a.armed[id] == x) || (x.due > a.now && x.serial >= a.serial)
  }

  /** The clock ends at `end` and nothing due is left over. */
  lemma {:induction false} AnnouncedCompletes(a: Agenda, end: nat, k: nat, script: Script)
    requires WellFormed(a) && a.now <= end
    ensures var o := Announced(a, end, k, script); o.agenda.now == end && Quiescent(o.agenda)
    decreases end - a.now, |DueNow(a)|
  {
    if AnyDue(a, end) {
      HandlerProgress(a, end, k, script);
      AnnouncedCompletes(AfterHandler(a, end, k, script).agenda, end, k + 1, script);
    }
  }

  /** The announcement fires in deadline order, first armed first, and no arming twice; every
      firing lies in the window, and is of a timeout armed before or by a handler on the way. */
  lemma {:induction false} AnnouncedInOrder(a: Agenda, end: nat, k: nat, script: Script)
    requires WellFormed(a) && a.now <= end
    ensures var f := Firings(Announced(a, end, k, script).log);
      && SortedFirings(f)
      && (forall x | x in f :: a.now <= x.due <= end && MayFire(a, x))
    decreases end - a.now, |DueNow(a)|
  {
    if AnyDue(a, end) {
      HandlerProgress(a, end, k, script);
      var id := Earliest(a);
      var b := AfterHandler(a, end, k, script).agenda;
      AnnouncedInOrder(b, end, k + 1, script);
      var f := Firings(Announced(b, end, k + 1, script).log);
      FiringsUnfold(a, end, k, script);
      FirstThenRest(a, end, k, script, f);
    }
  }

  lemma {:induction false} FirstThenRest(a: Agenda, end: nat, k: nat, script: Script, f: seq<Armed>)
    requires WellFormed(a) && |a.armed| > 0 && a.now <= a.armed[Earliest(a)].due <= end
    requires var b := AfterHandler(a, end, k, script).agenda;
      SortedFirings(f) && forall x | x in f :: b.now <= x.due <= end && MayFire(b, x)
    ensures var g := [a.armed[Earliest(a)]] + f;
      SortedFirings(g) && forall x | x in g :: a.now <= x.due <= end && MayFire(a, x)
  {
    var id := Earliest(a);
    var b := AfterHandler(a, end, k, script).agenda;
    ApplyAllFuture(Take(a), end - a.now, script(k, id, Take(a).now));
    forall x | x in f ensures Before(a.armed[id], x) && MayFire(a, x) {
      LaterFiring(a, Take(a), b, id, x);
    }
    assert MayFire(a, a.armed[id]);
  }

  lemma {:induction false} FiringsUnfold(a: Agenda, end: nat, k: nat, script: Script)
    requires WellFormed(a) && a.now <= end && AnyDue(a, end) && |a.armed| > 0
    requires WellFormed(AfterHandler(a, end, k, script).agenda) && AfterHandler(a, end, k, script).agenda.now <= end
    ensures Firings(Announced(a, end, k, script).log)
         == [a.armed[Earliest(a)]] + Firings(Announced(AfterHandler(a, end, k, script).agenda, end, k + 1, script).log)
  {
    var id := Earliest(a);
    var o := AfterHandler(a, end, k, script);
    var rest := Announced(o.agenda, end, k + 1, script);
    ApplyAllFiresNothing(Take(a), end - a.now, script(k, id, Take(a).now));
    var first := [Fired(id, a.armed[id])];
    assert Firings(first) == [a.armed[id]];
    FiringsConcat(first, o.log);
    FiringsConcat(first + o.log, rest.log);
  }

  lemma {:induction false} LaterFiring(a: Agenda, t: Agenda, b: Agenda, id: Id, x: Armed)
    requires WellFormed(a) && IsEarliest(a.armed, id)
    requires t == a.(now := a.armed[id].due, armed := a.armed - {id})
    requires OnlyFuture(t, b) && MayFire(b, x)
    ensures Before(a.armed[id], x) && MayFire(a, x)
  {
    if y :| y in b.armed && b.armed[y] == x {
      if y in t.armed && t.armed[y] == x { assert y in a.armed && a.armed[y] == x; }
    }
  }

  /** Exactly once: an arming that was live when the announcement began is afterwards either
      still armed, or was fired, or was disarmed by a handler; it is fired only if due by `end`,
      and if it is due by `end` it is no longer armed. */
  lemma {:induction false} AnnouncedConserves(a: Agenda, end: nat, k: nat, script: Script, id: Id)
    requires WellFormed(a) && a.now <= end && id in a.armed
    ensures var o := Announced(a, end, k, script); var x := a.armed[id];
      && ExactlyOne(StillArmed(o.agenda, id, x), FiredIn(o.log, id, x), DisarmedIn(o.log, id, x))
      && (FiredIn(o.log, id, x) ==> x.due <= end)
      && (x.due <= end ==> !StillArmed(o.agenda, id, x))
  {
    var o := Announced(a, end, k, script);
    var x := a.armed[id];
    FateOf(a, end, k, script, id);
    AnnouncedInOrder(a, end, k, script);
    AnnouncedCompletes(a, end, k, script);
    if FiredIn(o.log, id, x) { FiringListed(o.log, id, x); }
  }

  predicate ExactlyOne(p: bool, q: bool, r: bool) {
    (p || q || r) && !(p && q) && !(p && r) && !(q && r)
  }

  ghost predicate StillArmed(a: Agenda, id: Id, x: Armed) { id in a.armed && a.armed[id] == x }

  lemma {:induction false} FiringListed(log: seq<Event>, id: Id, x: Armed)
    requires Fired(id, x) in log
    ensures x in Firings(log)
    decreases log
  {
    if log[0] != Fired(id, x) { FiringListed(log[1..], id, x); }
  }

  lemma {:induction false} FateOf(a: Agenda, end: nat, k: nat, script: Script, id: Id)
    requires WellFormed(a) && a.now <= end && id in a.armed
    ensures var o := Announced(a, end, k, script); var x := a.armed[id];
      ExactlyOne(StillArmed(o.agenda, id, x), FiredIn(o.log, id, x), DisarmedIn(o.log, id, x))
    decreases end - a.now, |DueNow(a)|
  {
    if AnyDue(a, end) {
      HandlerProgress(a, end, k, script);
      var x := a.armed[id];
      var first := Earliest(a);
      var h := AfterHandler(a, end, k, script);
      var rest := Announced(h.agenda, end, k + 1, script);
      FateInHandler(a, end, k, script, id);
      if StillArmed(h.agenda, id, x) {
        FateOf(h.agenda, end, k + 1, script, id);
      } else {
        GoneForGood(h.agenda, end, k + 1, script, x);
      }
      LogCases([Fired(first, a.armed[first])], h.log, rest.log);
    }
  }

  lemma {:induction false} LogCases(x: seq<Event>, y: seq<Event>, z: seq<Event>)
    ensures forall e :: e in x + y + z <==> e in x || e in y || e in z
  {
  }

  /** One firing and its handler settle the fate of at most one arming of a timeout. */
  lemma {:induction false} FateInHandler(a: Agenda, end: nat, k: nat, script: Script, id: Id)
    requires WellFormed(a) && AnyDue(a, end) && id in a.armed && |a.armed| > 0
    ensures var h := AfterHandler(a, end, k, script); var x := a.armed[id];
      && !FiredIn(h.log, id, x)
      && ExactlyOne(StillArmed(h.agenda, id, x), Earliest(a) == id, DisarmedIn(h.log, id, x))
      && (!StillArmed(h.agenda, id, x) ==> Retired(h.agenda, x.serial))
  {
    var t := Take(a);
    var cs := script(k, Earliest(a), t.now);
    ApplyAllFiresNothing(t, end - a.now, cs);
    if Earliest(a) == id {
      RetiredStays(t, end - a.now, cs, a.armed[id].serial);
    } else {
      AppliedOnce(t, end - a.now, cs, id);
    }
  }

  /** No arming carries this serial any more. */
  ghost predicate Retired(a: Agenda, serial: nat) {
    serial < a.serial && forall id | id in a.armed :: a.armed[id].serial != serial
  }

  lemma {:induction false} RetiredStays(a: Agenda, remaining: int, cs: seq<Cmd>, serial: nat)
    requires Retired(a, serial)
    ensures Retired(ApplyAll(a, remaining, cs).agenda, serial)
    ensures forall e | e in ApplyAll(a, remaining, cs).log && e.Disarmed? :: e.at.serial != serial
    decreases cs
  {
    if cs != [] {
      RetiredStays(Apply(a, remaining, cs[0]).agenda, remaining, cs[1..], serial);
    }
  }

  /** One call either keeps an arming or disarms it, and says so. */
  lemma {:induction false} AppliedOnceStep(a: Agenda, remaining: int, c: Cmd, id: Id)
    requires WellFormed(a) && id in a.armed
    ensures var o := Apply(a, remaining, c); var x := a.armed[id];
      if StillArmed(o.agenda, id, x) then !DisarmedIn(o.log, id, x)
      else DisarmedIn(o.log, id, x) && Retired(o.agenda, x.serial)
  {
    var o := Apply(a, remaining, c);
    if (c.Abort? || c.Start?) && c.id == id && o.log != [] {
      assert o.log[0] == Disarmed(id, a.armed[id]);
    }
  }

  /** During one handler an armed timeout either keeps its arming or is disarmed. */
  lemma {:induction false} AppliedOnce(a: Agenda, remaining: int, cs: seq<Cmd>, id: Id)
    requires WellFormed(a) && id in a.armed
    ensures var o := ApplyAll(a, remaining, cs); var x := a.armed[id];
      if StillArmed(o.agenda, id, x) then !DisarmedIn(o.log, id, x)
      else DisarmedIn(o.log, id, x) && Retired(o.agenda, x.serial)
    decreases cs
  {
    if cs != [] {
      var o := Apply(a, remaining, cs[0]);
      var rest := ApplyAll(o.agenda, remaining, cs[1..]);
      var x := a.armed[id];
      ApplyFuture(a, remaining, cs[0]);
      AppliedOnceStep(a, remaining, cs[0], id);
      if StillArmed(o.agenda, id, x) {
        AppliedOnce(o.agenda, remaining, cs[1..], id);
      } else {
        RetiredStays(o.agenda, remaining, cs[1..], x.serial);
      }
      LogCases(o.log, rest.log, []);
      assert o.log + rest.log + [] == o.log + rest.log;
    }
  }

  lemma {:induction false} GoneForGood(a: Agenda, end: nat, k: nat, script: Script, x: Armed)
    requires WellFormed(a) && a.now <= end && Retired(a, x.serial)
    ensures var o := Announced(a, end, k, script);
      && Retired(o.agenda, x.serial)
      && (forall e | e in o.log && (e.Fired? || e.Disarmed?) :: e.at != x)
    decreases end - a.now, |DueNow(a)|
  {
    if AnyDue(a, end) {
      HandlerProgress(a, end, k, script);
      var id := Earliest(a);
      var t := Take(a);
      var o := AfterHandler(a, end, k, script);
      ApplyAllFiresNothing(t, end - a.now, script(k, id, t.now));
      RetiredStays(t, end - a.now, script(k, id, t.now), x.serial);
      GoneForGood(o.agenda, end, k + 1, script, x);
    }
  }
}
