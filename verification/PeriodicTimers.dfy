/** Periodic timers (kernel/timer.c) over whole runs: how the successive expiries of one timer
    lie on the time axis, however ticks are batched into announcements. */
module PeriodicTimers {
  import opened Timeouts

  /** A run of the system: calls made between announcements, and announcements of ticks. */
  datatype Step = Calls(cmds: seq<Cmd>) | Ticks(n: nat)

  ghost function Stepped(a: Agenda, step: Step, script: Script): (o: Outcome)
    requires WellFormed(a)
    ensures WellFormed(o.agenda)
  {
    match step
    case Calls(cs) =>
      ApplyAllFuture(a, 0, cs);
      ApplyAll(a, 0, cs)
    case Ticks(n) =>
      AnnouncedCompletes(a, a.now + n, 0, script);
      Announced(a, a.now + n, 0, script)
  }

  /** A run; `scripts(i)` is what handlers do in the announcement with i steps still to go. */
  ghost function Timeline(a: Agenda, steps: seq<Step>, scripts: nat -> Script): (o: Outcome)
    requires WellFormed(a)
    ensures WellFormed(o.agenda)
    decreases steps
  {
    if steps == [] then Outcome(a, [])
    else
      var o := Stepped(a, steps[0], scripts(|steps|));
      var rest := Timeline(o.agenda, steps[1..], scripts);
      Outcome(rest.agenda, o.log + rest.log)
  }

  /** Nothing but the timer's own expiry handler touches timer `id`. */
  predicate Leaves(cs: seq<Cmd>, id: Id) { forall c | c in cs :: c.id != id }

  ghost predicate RunsHandler(cs: seq<Cmd>, id: Id) {
    cs != [] && cs[0].Expire? && cs[0].id == id && Leaves(cs[1..], id)
  }

  ghost predicate Undisturbed(script: Script, id: Id) {
    && (forall k: nat, now: nat :: RunsHandler(script(k, id, now), id))
    && (forall k: nat, x: nat, now: nat | x != id :: Leaves(script(k, x, now), id))
  }

  ghost predicate UndisturbedRun(steps: seq<Step>, scripts: nat -> Script, id: Id) {
    && (forall i | 0 <= i < |steps| && steps[i].Calls? :: Leaves(steps[i].cmds, id))
    && (forall i: nat :: Undisturbed(scripts(i), id))
  }

  /** A timer that is running with the given period. */
  ghost predicate Running(a: Agenda, id: Id, period: int) {
    WellFormed(a) && id in a.armed && id in a.timers && a.timers[id].period == period && Repeats(period)
  }

  function Stride(period: int): nat { Max(period, 1) }

  // ---------------------------------------------------------------- reading a timer's life off a log

  /** Where a periodic timer stands: waiting for its next deadline, or inside its handler. */
  datatype Phase = Waiting(due: int) | Handling(due: int) | Broken

  function Advance(p: Phase, e: Event, id: Id, period: int): Phase {
    if e.id != id then p
    else match e
      case Fired(_, at) => if p.Waiting? && at.due == p.due then Handling(p.due) else Broken
      case Rearmed(_, slip) => if p.Handling? then Waiting(p.due + Stride(period) + slip) else Broken
      case Disarmed(_, _) => Broken
  }

  function AdvanceAll(p: Phase, log: seq<Event>, id: Id, period: int): Phase
    decreases log
  {
    if log == [] then p else AdvanceAll(Advance(p, log[0], id, period), log[1..], id, period)
  }

  lemma {:induction false} AdvanceConcat(p: Phase, x: seq<Event>, y: seq<Event>, id: Id, period: int)
    ensures AdvanceAll(p, x + y, id, period) == AdvanceAll(AdvanceAll(p, x, id, period), y, id, period)
    decreases x
  {
    if x == [] {
      assert x + y == y;
    } else {
      assert (x + y)[0] == x[0] && (x + y)[1..] == x[1..] + y;
      AdvanceConcat(Advance(p, x[0], id, period), x[1..], y, id, period);
    }
  }

  /** Calls on other timeouts do not move the timer. */
  lemma {:induction false} OthersLeave(a: Agenda, remaining: int, cs: seq<Cmd>, id: Id, period: int, p: Phase)
    requires Running(a, id, period) && Leaves(cs, id)
    ensures var o := ApplyAll(a, remaining, cs);
      Running(o.agenda, id, period) && o.agenda.armed[id] == a.armed[id] && AdvanceAll(p, o.log, id, period) == p
    decreases cs
  {
    if cs != [] {
      var o := Apply(a, remaining, cs[0]);
      ApplyFuture(a, remaining, cs[0]);
      OneOtherLeaves(a, remaining, cs[0], id, period, p);
      OthersLeave(o.agenda, remaining, cs[1..], id, period, p);
      AdvanceConcat(p, o.log, ApplyAll(o.agenda, remaining, cs[1..]).log, id, period);
    }
  }

  lemma {:induction false} OneOtherLeaves(a: Agenda, remaining: int, c: Cmd, id: Id, period: int, p: Phase)
    requires Running(a, id, period) && c.id != id
    ensures var o := Apply(a, remaining, c);
      && id in o.agenda.armed && o.agenda.armed[id] == a.armed[id]
      && id in o.agenda.timers && o.agenda.timers[id] == a.timers[id]
      && AdvanceAll(p, o.log, id, period) == p
  {
    hide WellFormed;
    var o := Apply(a, remaining, c);
    assert |o.log| <= 1 && forall e | e in o.log :: e.id == c.id;
    assert o.log != [] ==> o.log[1..] == [];
  }

  /** The expiry handler re-arms its timer one stride after the tick it runs at, plus whatever
      elapsed() shows it: so on the grid exactly when elapsed() shows nothing. */
  lemma {:induction false} HandlerRearms(a: Agenda, remaining: int, id: Id, hw: nat)
    requires WellFormed(a) && id !in a.armed && id in a.timers && Repeats(a.timers[id].period)
    ensures var o := Apply(a, remaining, Expire(id, hw)); var slip := Elapsed(remaining, hw);
      && Running(o.agenda, id, a.timers[id].period)
      && o.agenda.armed[id].due == a.now + Stride(a.timers[id].period) + slip
      && o.log == [Rearmed(id, slip)]
      && (o.agenda.armed[id].due == a.now + Stride(a.timers[id].period) <==> remaining != 0 || hw == 0)
  {
    ApplyFuture(a, remaining, Expire(id, hw));
  }

  /** Through one announcement the timer goes from expiry to expiry without a gap. */
  lemma {:induction false} AnnouncementFollows(a: Agenda, end: nat, k: nat, script: Script, id: Id, period: int)
    requires Running(a, id, period) && a.now <= end && Undisturbed(script, id)
    ensures var o := Announced(a, end, k, script);
      && Running(o.agenda, id, period)
      && AdvanceAll(Waiting(a.armed[id].due), o.log, id, period) == Waiting(o.agenda.armed[id].due)
    decreases end - a.now, |DueNow(a)|
  {
    AnnouncedCompletes(a, end, k, script);
    if AnyDue(a, end) {
      HandlerProgress(a, end, k, script);
      var o := AfterHandler(a, end, k, script);
      HandlerFollows(a, end, k, script, id, period);
      AnnouncementFollows(o.agenda, end, k + 1, script, id, period);
      var rest := Announced(o.agenda, end, k + 1, script);
      var first := [Fired(Earliest(a), a.armed[Earliest(a)])];
      AdvanceConcat(Waiting(a.armed[id].due), first + o.log, rest.log, id, period);
    }
  }

  lemma {:induction false} HandlerFollows(a: Agenda, end: nat, k: nat, script: Script, id: Id, period: int)
    requires Running(a, id, period) && AnyDue(a, end) && |a.armed| > 0 && Undisturbed(script, id)
    ensures var o := AfterHandler(a, end, k, script); var first := [Fired(Earliest(a), a.armed[Earliest(a)])];
      && Running(o.agenda, id, period)
      && AdvanceAll(Waiting(a.armed[id].due), first + o.log, id, period) == Waiting(o.agenda.armed[id].due)
  {
    hide WellFormed;
    var fired := Earliest(a);
    var t := Take(a);
    var cs := script(k, fired, t.now);
    var o := AfterHandler(a, end, k, script);
    var first := [Fired(fired, a.armed[fired])];
    var start := Waiting(a.armed[id].due);
    AdvanceConcat(start, first, o.log, id, period);
    assert first[1..] == [];
    if fired != id {
      assert AdvanceAll(start, first, id, period) == start;
      OthersLeave(t, end - a.now, cs, id, period, start);
    } else {
      OwnHandlerFollows(t, end - a.now, cs, id, period);
    }
  }

  lemma {:induction false} OwnHandlerFollows(t: Agenda, remaining: int, cs: seq<Cmd>, id: Id, period: int)
    requires WellFormed(t) && id !in t.armed && id in t.timers && t.timers[id].period == period && Repeats(period)
    requires RunsHandler(cs, id)
    ensures var o := ApplyAll(t, remaining, cs);
      && Running(o.agenda, id, period)
      && AdvanceAll(Handling(t.now), o.log, id, period) == Waiting(o.agenda.armed[id].due)
  {
    var e := Apply(t, remaining, cs[0]);
    HandlerRearms(t, remaining, id, cs[0].hw);
    var next := Waiting(e.agenda.armed[id].due);
    OthersLeave(e.agenda, remaining, cs[1..], id, period, next);
    AdvanceConcat(Handling(t.now), e.log, ApplyAll(e.agenda, remaining, cs[1..]).log, id, period);
    assert e.log[1..] == [];
    assert AdvanceAll(Handling(t.now), e.log, id, period) == next;
  }

  lemma {:induction false} SteppedFollows(a: Agenda, step: Step, script: Script, id: Id, period: int)
    requires Running(a, id, period) && Undisturbed(script, id)
    requires step.Calls? ==> Leaves(step.cmds, id)
    ensures var o := Stepped(a, step, script);
      && Running(o.agenda, id, period)
      && AdvanceAll(Waiting(a.armed[id].due), o.log, id, period) == Waiting(o.agenda.armed[id].due)
  {
    hide WellFormed, Announced, ApplyAll, AdvanceAll, Undisturbed;
    match step {
      case Calls(cs) => OthersLeave(a, 0, cs, id, period, Waiting(a.armed[id].due));
      case Ticks(n) => AnnouncementFollows(a, a.now + n, 0, script, id, period);
    }
  }

  /** The same over a whole run of calls and announcements. */
  lemma {:induction false} TimelineFollows(a: Agenda, steps: seq<Step>, scripts: nat -> Script, id: Id, period: int)
    requires Running(a, id, period) && UndisturbedRun(steps, scripts, id)
    ensures var o := Timeline(a, steps, scripts);
      && Running(o.agenda, id, period)
      && AdvanceAll(Waiting(a.armed[id].due), o.log, id, period) == Waiting(o.agenda.armed[id].due)
    decreases steps
  {
    hide WellFormed, Stepped, Undisturbed, Leaves;
    if steps != [] {
      var o := Stepped(a, steps[0], scripts(|steps|));
      SteppedFollows(a, steps[0], scripts(|steps|), id, period);
      TimelineFollows(o.agenda, steps[1..], scripts, id, period);
      AdvanceConcat(Waiting(a.armed[id].due), o.log, Timeline(o.agenda, steps[1..], scripts).log, id, period);
    }
  }

  // ---------------------------------------------------------------- the expiries of one timer

  function Expiries(log: seq<Event>, id: Id): seq<int> {
    if log == [] then []
    else if log[0].Fired? && log[0].id == id then [log[0].at.due] + Expiries(log[1..], id)
    else Expiries(log[1..], id)
  }

  /** The elapsed ticks the timer's handler saw, expiry by expiry. */
  function Slips(log: seq<Event>, id: Id): seq<nat> {
    if log == [] then []
    else if log[0].Rearmed? && log[0].id == id then [log[0].elapsed] + Slips(log[1..], id)
    else Slips(log[1..], id)
  }

  function Sum(s: seq<nat>): nat { if s == [] then 0 else s[0] + Sum(s[1..]) }

  lemma {:induction false} SumZero(s: seq<nat>)
    ensures Sum(s) == 0 <==> forall i | 0 <= i < |s| :: s[i] == 0
    decreases s
  {
    if s != [] {
      SumZero(s[1..]);
      assert forall i | 1 <= i < |s| :: s[i] == s[1..][i - 1];
    }
  }

  lemma {:induction false} BrokenStays(log: seq<Event>, id: Id, period: int)
    ensures AdvanceAll(Broken, log, id, period) == Broken
    decreases log
  {
    if log != [] { BrokenStays(log[1..], id, period); }
  }

  /** The k-th expiry read off a log that follows the timer. */
  lemma {:induction false} ExpiryAt(p: Phase, log: seq<Event>, id: Id, period: int, k: nat)
    requires !p.Broken? && !AdvanceAll(p, log, id, period).Broken? && k < |Expiries(log, id)|
    ensures var n := if p.Waiting? then k else k + 1;
      && n <= |Slips(log, id)|
      && Expiries(log, id)[k] == p.due + Strides(n, Stride(period)) + Sum(Slips(log, id)[..n])
    decreases log
  {
    var e, rest := log[0], log[1..];
    var q := Advance(p, e, id, period);
    if q.Broken? { BrokenStays(rest, id, period); }
    assert !q.Broken? && !AdvanceAll(q, rest, id, period).Broken?;
    hide AdvanceAll, Stride;
    if e.id == id && e.Fired? {
      assert Expiries(log, id) == [e.at.due] + Expiries(rest, id) && Slips(log, id) == Slips(rest, id);
      if k > 0 { ExpiryAt(q, rest, id, period, k - 1); }
    } else if e.id == id && e.Rearmed? {
      assert Expiries(log, id) == Expiries(rest, id) && Slips(log, id) == [e.elapsed] + Slips(rest, id);
      ExpiryAt(q, rest, id, period, k);
      assert Slips(log, id)[..k + 1] == [e.elapsed] + Slips(rest, id)[..k];
      assert ([e.elapsed] + Slips(rest, id)[..k])[1..] == Slips(rest, id)[..k];
    } else {
      assert Expiries(log, id) == Expiries(rest, id) && Slips(log, id) == Slips(rest, id);
      ExpiryAt(q, rest, id, period, k);
    }
  }

  function Strides(n: nat, stride: nat): nat { if n == 0 then 0 else stride + Strides(n - 1, stride) }

  lemma {:induction false} StridesAreMultiples(n: nat, stride: nat)
    ensures Strides(n, stride) == n * stride
  {
    if n > 0 {
      StridesAreMultiples(n - 1, stride);
      assert n * stride == (n - 1) * stride + stride;
    }
  }

  /** The k-th expiry of an undisturbed periodic timer lies at its first deadline plus k strides
      plus the elapsed ticks its handler was shown before; there is no drift up to the k-th
      expiry exactly when the handler was shown none. */
  lemma {:induction false} PeriodicLaw(a: Agenda, steps: seq<Step>, scripts: nat -> Script, id: Id, period: int, k: nat)
    requires Running(a, id, period) && UndisturbedRun(steps, scripts, id)
    requires k < |Expiries(Timeline(a, steps, scripts).log, id)|
    ensures var log := Timeline(a, steps, scripts).log; var slips := Slips(log, id);
      && k <= |slips|
      && Expiries(log, id)[k] == a.armed[id].due + k * Stride(period) + Sum(slips[..k])
      && (Expiries(log, id)[k] == a.armed[id].due + k * Stride(period) <==> forall i | 0 <= i < k :: slips[i] == 0)
  {
    TimelineFollows(a, steps, scripts, id, period);
    var log := Timeline(a, steps, scripts).log;
    ExpiryAt(Waiting(a.armed[id].due), log, id, period, k);
    SumZero(Slips(log, id)[..k]);
    StridesAreMultiples(k, Stride(period));
  }

  // ---------------------------------------------------------------- when the clock stands still for the handler

  /** Whenever the timer's handler reads the hardware, it reads zero. */
  ghost predicate QuietCmds(cs: seq<Cmd>, id: Id) {
    forall c | c in cs && c.Expire? && c.id == id :: c.hw == 0
  }

  ghost predicate QuietScript(script: Script, id: Id) {
    forall k: nat, x: nat, now: nat :: QuietCmds(script(k, x, now), id)
  }

  ghost predicate QuietRun(steps: seq<Step>, scripts: nat -> Script, id: Id) {
    && (forall i | 0 <= i < |steps| && steps[i].Calls? :: QuietCmds(steps[i].cmds, id))
    && (forall i: nat :: QuietScript(scripts(i), id))
  }

  ghost predicate QuietLog(log: seq<Event>, id: Id) {
    forall e | e in log && e.Rearmed? && e.id == id :: e.elapsed == 0
  }

  lemma {:induction false} QuietConcat(x: seq<Event>, y: seq<Event>, id: Id)
    requires QuietLog(x, id) && QuietLog(y, id)
    ensures QuietLog(x + y, id)
  {
  }

  lemma {:induction false} ApplyAllQuiet(a: Agenda, remaining: int, cs: seq<Cmd>, id: Id)
    requires QuietCmds(cs, id)
    ensures QuietLog(ApplyAll(a, remaining, cs).log, id)
    decreases cs
  {
    if cs != [] {
      var o := Apply(a, remaining, cs[0]);
      assert cs[0] in cs;
      assert QuietLog(o.log, id);
      ApplyAllQuiet(o.agenda, remaining, cs[1..], id);
      QuietConcat(o.log, ApplyAll(o.agenda, remaining, cs[1..]).log, id);
    }
  }

  lemma {:induction false} AnnouncedQuiet(a: Agenda, end: nat, k: nat, script: Script, id: Id)
    requires WellFormed(a) && a.now <= end && QuietScript(script, id)
    ensures QuietLog(Announced(a, end, k, script).log, id)
    decreases end - a.now, |DueNow(a)|
  {
    hide QuietLog, QuietCmds;
    AnnouncedCompletes(a, end, k, script);
    if AnyDue(a, end) {
      HandlerProgress(a, end, k, script);
      var o := AfterHandler(a, end, k, script);
      var first := [Fired(Earliest(a), a.armed[Earliest(a)])];
      ApplyAllQuiet(Take(a), end - a.now, script(k, Earliest(a), Take(a).now), id);
      AnnouncedQuiet(o.agenda, end, k + 1, script, id);
      QuietFired(first[0], id);
      QuietConcat(first, o.log, id);
      QuietConcat(first + o.log, Announced(o.agenda, end, k + 1, script).log, id);
    } else {
      QuietNothing(id);
    }
  }

  lemma {:induction false} QuietFired(e: Event, id: Id)
    requires e.Fired?
    ensures QuietLog([e], id)
  {
  }

  lemma {:induction false} QuietNothing(id: Id)
    ensures QuietLog([], id)
  {
  }

  lemma {:induction false} TimelineQuiet(a: Agenda, steps: seq<Step>, scripts: nat -> Script, id: Id)
    requires WellFormed(a) && QuietRun(steps, scripts, id)
    ensures QuietLog(Timeline(a, steps, scripts).log, id)
    decreases steps
  {
    if steps == [] {
      QuietNothing(id);
    } else {
      hide QuietLog, QuietCmds, QuietScript, WellFormed;
      var o := Stepped(a, steps[0], scripts(|steps|));
      match steps[0] {
        case Calls(cs) => ApplyAllQuiet(a, 0, cs, id);
        case Ticks(n) => AnnouncedQuiet(a, a.now + n, 0, scripts(|steps|), id);
      }
      TimelineQuiet(o.agenda, steps[1..], scripts, id);
      QuietConcat(o.log, Timeline(o.agenda, steps[1..], scripts).log, id);
    }
  }

  lemma {:induction false} SlipsQuiet(log: seq<Event>, id: Id)
    requires QuietLog(log, id)
    ensures forall i | 0 <= i < |Slips(log, id)| :: Slips(log, id)[i] == 0
    decreases log
  {
    if log != [] {
      assert log[0] in log && forall e | e in log[1..] :: e in log;
      SlipsQuiet(log[1..], id);
    }
  }

  /** No drift: if the hardware shows no elapsed tick whenever the timer's handler asks, the k-th expiry
      after the first lies exactly k strides after it, however ticks are batched. */
  lemma {:induction false} NoDrift(a: Agenda, steps: seq<Step>, scripts: nat -> Script, id: Id, period: int, k: nat)
    requires Running(a, id, period) && UndisturbedRun(steps, scripts, id) && QuietRun(steps, scripts, id)
    requires k < |Expiries(Timeline(a, steps, scripts).log, id)|
    ensures Expiries(Timeline(a, steps, scripts).log, id)[k] == a.armed[id].due + k * Stride(period)
  {
    hide UndisturbedRun, QuietRun, WellFormed, Expiries, Slips, Timeline;
    var log := Timeline(a, steps, scripts).log;
    TimelineQuiet(a, steps, scripts, id);
    SlipsQuiet(log, id);
    PeriodicLaw(a, steps, scripts, id, period, k);
  }

  /** From the call of k_timer_start() on: with a relative duration and a period, at tick `now` with
      `hw` ticks elapsed, the k-th expiry after the first lies at the tick of the call plus the
      duration plus k periods, each at least one tick, plus the elapsed ticks the handler was shown;
      with none shown, exactly there. */
  lemma {:induction false} ExpiriesFromStart(
    a: Agenda, steps: seq<Step>, scripts: nat -> Script, id: Id, duration: int, period: int, hw: nat, k: nat)
    requires WellFormed(a) && duration >= 0 && period != 0 && period != -1 && UndisturbedRun(steps, scripts, id)
    ensures WellFormed(Apply(a, 0, Start(id, duration, period, hw)).agenda)
    ensures
      var log := Timeline(Apply(a, 0, Start(id, duration, period, hw)).agenda, steps, scripts).log;
      var grid := a.now + hw + (if duration > 1 then duration else 1) + k * (if period > 1 then period else 1);
      k < |Expiries(log, id)| ==>
        && k <= |Slips(log, id)|
        && Expiries(log, id)[k] == grid + Sum(Slips(log, id)[..k])
        && (QuietRun(steps, scripts, id) ==> Expiries(log, id)[k] == grid)
  {
    hide UndisturbedRun, QuietRun, WellFormed, Expiries, Slips, Timeline, Sum;
    var c := Start(id, duration, period, hw);
    ApplyFuture(a, 0, c);
    StartDue(a, 0, id, duration, period, hw);
    var b := Apply(a, 0, c).agenda;
    hide Apply;
    if k < |Expiries(Timeline(b, steps, scripts).log, id)| {
      PeriodicLaw(b, steps, scripts, id, period, k);
      if QuietRun(steps, scripts, id) { NoDrift(b, steps, scripts, id, period, k); }
    }
  }

  // ---------------------------------------------------------------- when the handler is shown elapsed time

  /** In an announcement a handler is shown elapsed ticks only if the announcement had already
      reached its last tick before this timeout was taken off: the case of a second timeout due
      at that tick.  Every other handler sees the clock stand still. */
  lemma {:induction false} ElapsedOnlyAtLastTick(a: Agenda, end: nat, k: nat, script: Script, id: Id, slip: nat)
    requires WellFormed(a) && |a.armed| > 0 && a.now <= end
    requires Rearmed(id, slip) in AfterHandler(a, end, k, script).log && slip > 0
    ensures a.now == end
  {
    SlipNeedsNoRemaining(Take(a), end - a.now, script(k, Earliest(a), Take(a).now), id, slip);
  }

  lemma {:induction false} SlipNeedsNoRemaining(a: Agenda, remaining: int, cs: seq<Cmd>, id: Id, slip: nat)
    requires Rearmed(id, slip) in ApplyAll(a, remaining, cs).log && slip > 0
    ensures remaining == 0
    decreases cs
  {
    var o := Apply(a, remaining, cs[0]);
    if Rearmed(id, slip) !in o.log {
      SlipNeedsNoRemaining(o.agenda, remaining, cs[1..], id, slip);
    }
  }

  /** Two timers of period 10, both due at tick 5. */
  const TwoTimers := Agenda(0, map[1 := Armed(5, 0), 2 := Armed(5, 1)], 2, map[1 := Timer(10, 0), 2 := Timer(10, 0)])

  /** It does happen: TwoTimers, in an announcement of 5 ticks handled three ticks late.  The
      first timer is re-armed for tick 15, the second for tick 18. */
  lemma {:induction false} DriftExample(script: Script)
    requires forall k: nat, id: nat, now: nat :: script(k, id, now) == [Expire(id, 3)]
    ensures Running(TwoTimers, 2, 10)
    ensures Announced(TwoTimers, 5, 0, script).agenda.armed == map[1 := Armed(15, 2), 2 := Armed(18, 3)]
  {
    hide Announced, Apply, AnyDue;
    var b := Agenda(5, map[2 := Armed(5, 1), 1 := Armed(15, 2)], 3, map[1 := Timer(10, 1), 2 := Timer(10, 0)]);
    var c := Agenda(5, map[1 := Armed(15, 2), 2 := Armed(18, 3)], 4, map[1 := Timer(10, 1), 2 := Timer(10, 1)]);
    assert IsEarliest(TwoTimers.armed, 1) && IsEarliest(b.armed, 2);
    ExampleTurns();
    hide WellFormed, IsEarliest;
    OneTurn(TwoTimers, 5, 0, script, 1, Expire(1, 3));
    OneTurn(b, 5, 1, script, 2, Expire(2, 3));
    NothingDue(c, 2, script);
  }

  lemma {:induction false} ExampleTurns()
    ensures var b := Agenda(5, map[2 := Armed(5, 1), 1 := Armed(15, 2)], 3, map[1 := Timer(10, 1), 2 := Timer(10, 0)]);
      && Apply(TwoTimers.(now := 5, armed := TwoTimers.armed - {1}), 5, Expire(1, 3)).agenda == b
      && Apply(b.(now := 5, armed := b.armed - {2}), 0, Expire(2, 3)).agenda
         == Agenda(5, map[1 := Armed(15, 2), 2 := Armed(18, 3)], 4, map[1 := Timer(10, 1), 2 := Timer(10, 1)])
  {
    assert TwoTimers.armed - {1} == map[2 := Armed(5, 1)];
    assert map[2 := Armed(5, 1), 1 := Armed(15, 2)] - {2} == map[1 := Armed(15, 2)];
  }

  lemma {:induction false} NothingDue(a: Agenda, k: nat, script: Script)
    requires WellFormed(a) && forall id | id in a.armed :: a.armed[id].due > a.now
    ensures Announced(a, a.now, k, script).agenda == a
  {
  }

  lemma {:induction false} ApplyAllOne(a: Agenda, remaining: int, c: Cmd)
    ensures ApplyAll(a, remaining, [c]).agenda == Apply(a, remaining, c).agenda
  {
    hide Apply;
    assert [c][1..] == [];
  }

  /** A turn of the announcement loop whose handler makes a single call. */
  lemma {:induction false} OneTurn(a: Agenda, end: nat, k: nat, script: Script, id: Id, cmd: Cmd)
    requires WellFormed(a) && a.now <= end && IsEarliest(a.armed, id) && a.armed[id].due <= end
    requires script(k, id, a.armed[id].due) == [cmd]
    ensures var b := Apply(a.(now := a.armed[id].due, armed := a.armed - {id}), end - a.now, cmd).agenda;
      WellFormed(b) && b.now <= end && Announced(a, end, k, script).agenda == Announced(b, end, k + 1, script).agenda
  {
    hide Apply, ApplyAll;
    assert AnyDue(a, end);
    HandlerProgress(a, end, k, script);
    assert Earliest(a) == id;
    ApplyAllOne(Take(a), end - a.now, cmd);
  }
}
