/** The delta-encoded timeout list of kernel/timeout.c as a mutable queue, and the proof that it
    stays equal to the sorted agenda while handlers re-enter it. */
module TimeoutQueues {
  import opened Timeouts

  const EINVAL := 22

  /** A node of timeout_list: `dticks` counts from the node before. */
  datatype Node = Node(id: Id, dticks: int)

  datatype Timed = Timed(id: Id, due: int)

  // ---------------------------------------------------------------- meaning of a delta list

  function Absolute(list: seq<Node>, now: int): (s: seq<Timed>)
    ensures |s| == |list|
    decreases list
  {
    if list == [] then []
    else [Timed(list[0].id, now + list[0].dticks)] + Absolute(list[1..], now + list[0].dticks)
  }

  function Total(list: seq<Node>): int {
    if list == [] then 0 else list[0].dticks + Total(list[1..])
  }

  lemma {:induction false} AbsoluteConcat(x: seq<Node>, y: seq<Node>, now: int)
    ensures Absolute(x + y, now) == Absolute(x, now) + Absolute(y, now + Total(x))
    decreases x
  {
    if x == [] {
      assert x + y == y;
    } else {
      assert (x + y)[0] == x[0] && (x + y)[1..] == x[1..] + y;
      AbsoluteConcat(x[1..], y, now + x[0].dticks);
    }
  }

  lemma {:induction false} TotalConcat(x: seq<Node>, y: seq<Node>)
    ensures Total(x + y) == Total(x) + Total(y)
    decreases x
  {
    if x == [] {
      assert x + y == y;
    } else {
      assert (x + y)[0] == x[0] && (x + y)[1..] == x[1..] + y;
      TotalConcat(x[1..], y);
    }
  }

  /** The absolute deadline at a position is the sum of the deltas up to it. */
  lemma {:induction false} AbsoluteAt(list: seq<Node>, now: int, i: nat)
    requires i < |list|
    ensures Absolute(list, now)[i] == Timed(list[i].id, now + Total(list[..i]) + list[i].dticks)
  {
    assert list == list[..i] + list[i..];
    AbsoluteConcat(list[..i], list[i..], now);
  }

  lemma {:induction false} AbsoluteIds(list: seq<Node>, now: int)
    ensures forall i | 0 <= i < |list| :: Absolute(list, now)[i].id == list[i].id
  {
    forall i | 0 <= i < |list| ensures Absolute(list, now)[i].id == list[i].id {
      AbsoluteAt(list, now, i);
    }
  }

  // ---------------------------------------------------------------- sorted agendas

  /** `s` holds exactly the timeouts of `m` with their deadlines, earliest first and, among
      equal deadlines, in the order they were armed. */
  ghost predicate Lists(s: seq<Timed>, m: map<Id, Armed>) {
    && (forall i | 0 <= i < |s| :: s[i].id in m && s[i].due == m[s[i].id].due)
    && (forall id {:trigger Listed(s, id)} | id in m :: Listed(s, id))
    && (forall i, j | 0 <= i < j < |s| :: Before(m[s[i].id], m[s[j].id]))
  }

  ghost predicate Listed(s: seq<Timed>, id: Id) { exists i :: 0 <= i < |s| && s[i].id == id }

  /** There is only one such sequence, so a list that `Lists` the agenda is the agenda sorted. */
  lemma {:induction false} ListsUnique(s: seq<Timed>, t: seq<Timed>, m: map<Id, Armed>)
    requires Lists(s, m) && Lists(t, m)
    ensures s == t
    decreases s
  {
    hide Lists;
    if s == [] {
      if t != [] { SameFirst(t, s, m); }
    } else {
      SameFirst(s, t, m);
      ListsRemove(s, m, 0);
      ListsRemove(t, m, 0);
      assert s[..0] + s[1..] == s[1..] && t[..0] + t[1..] == t[1..];
      ListsUnique(s[1..], t[1..], m - {s[0].id});
      assert s == [s[0]] + s[1..] && t == [t[0]] + t[1..];
    }
  }

  lemma {:induction false} SameFirst(s: seq<Timed>, t: seq<Timed>, m: map<Id, Armed>)
    requires Lists(s, m) && Lists(t, m) && s != []
    ensures t != [] && s[0] == t[0]
  {
    assert Listed(t, s[0].id);
    var j :| 0 <= j < |t| && t[j].id == s[0].id;
    assert Listed(s, t[0].id);
    var i :| 0 <= i < |s| && s[i].id == t[0].id;
    assert i == 0 && j == 0;
  }

  lemma {:induction false} ListsRemove(s: seq<Timed>, m: map<Id, Armed>, i: nat)
    requires Lists(s, m) && i < |s|
    ensures Lists(s[..i] + s[i + 1..], m - {s[i].id})
  {
    var r := s[..i] + s[i + 1..];
    var n := m - {s[i].id};
    forall id | id in n ensures Listed(r, id) {
      assert Listed(s, id);
      var k :| 0 <= k < |s| && s[k].id == id;
      var k' := if k < i then k else k - 1;
      assert r[k'].id == id;
    }
  }

  lemma {:induction false} ListsInsert(s: seq<Timed>, m: map<Id, Armed>, i: nat, id: Id, x: Armed)
    requires Lists(s, m) && i <= |s| && id !in m
    requires forall k | 0 <= k < i :: s[k].due <= x.due
    requires forall k | i <= k < |s| :: s[k].due > x.due
    requires forall y | y in m :: m[y].serial < x.serial
    ensures Lists(s[..i] + [Timed(id, x.due)] + s[i..], m[id := x])
  {
    var r := s[..i] + [Timed(id, x.due)] + s[i..];
    var n := m[id := x];
    forall y | y in n ensures Listed(r, y) {
      if y == id {
        assert r[i].id == id;
      } else {
        assert Listed(s, y);
        var k :| 0 <= k < |s| && s[k].id == y;
        var k' := if k < i then k else k + 1;
        assert r[k'].id == y;
      }
    }
  }

  /** No delta is ever negative. */
  lemma {:induction false} DeltasNonNegative(list: seq<Node>, a: Agenda)
    requires WellFormed(a) && Lists(Absolute(list, a.now), a.armed)
    ensures forall i | 0 <= i < |list| :: list[i].dticks >= 0
  {
    forall i | 0 <= i < |list| ensures list[i].dticks >= 0 {
      AbsoluteAt(list, a.now, i);
      if i > 0 {
        AbsoluteAt(list, a.now, i - 1);
        assert list[..i] == list[..i - 1] + [list[i - 1]];
        TotalConcat(list[..i - 1], [list[i - 1]]);
      }
    }
  }

  // ---------------------------------------------------------------- the three list edits

  /** Inserting before position i, taking the new delta off the node that follows. */
  function Inserted(list: seq<Node>, i: nat, n: Node): (r: seq<Node>)
    requires i <= |list|
  {
    if i == |list| then list + [n]
    else list[..i] + [n] + [list[i].(dticks := list[i].dticks - n.dticks)] + list[i + 1..]
  }

  lemma {:induction false} InsertedAbsolute(list: seq<Node>, i: nat, n: Node, now: int)
    requires i <= |list|
    ensures Absolute(Inserted(list, i, n), now)
         == Absolute(list, now)[..i] + [Timed(n.id, now + Total(list[..i]) + n.dticks)] + Absolute(list, now)[i..]
  {
    var at := now + Total(list[..i]);
    var tail := if i == |list| then [n]
                else [n] + [list[i].(dticks := list[i].dticks - n.dticks)] + list[i + 1..];
    assert list == list[..i] + list[i..];
    AbsoluteConcat(list[..i], list[i..], now);
    assert Inserted(list, i, n) == list[..i] + tail;
    AbsoluteConcat(list[..i], tail, now);
    assert list[i..] != [] ==> list[i..][0] == list[i] && list[i..][1..] == list[i + 1..];
    InsertedFront(list[i..], n, at);
    hide Absolute, Total, Inserted;
    var left, right := Absolute(list[..i], now), Absolute(list[i..], at);
    assert (left + right)[..i] == left && (left + right)[i..] == right;
  }

  lemma {:induction false} InsertedFront(list: seq<Node>, n: Node, at: int)
    ensures Absolute(if list == [] then [n]
                     else [n] + [list[0].(dticks := list[0].dticks - n.dticks)] + list[1..], at)
         == [Timed(n.id, at + n.dticks)] + Absolute(list, at)
  {
    if list != [] {
      var m := list[0].(dticks := list[0].dticks - n.dticks);
      var tail := [n] + [m] + list[1..];
      assert tail[1..] == [m] + list[1..] && tail[1..][1..] == list[1..];
    } else {
      assert [n][1..] == [];
    }
  }

  /** remove_timeout(): the node that follows takes over the removed delta. */
  function Removed(list: seq<Node>, i: nat): (r: seq<Node>)
    requires i < |list|
  {
    if i + 1 == |list| then list[..i]
    else list[..i] + [list[i + 1].(dticks := list[i + 1].dticks + list[i].dticks)] + list[i + 2..]
  }

  lemma {:induction false} RemovedAbsolute(list: seq<Node>, i: nat, now: int)
    requires i < |list|
    ensures Absolute(Removed(list, i), now) == Absolute(list, now)[..i] + Absolute(list, now)[i + 1..]
  {
    var at := now + Total(list[..i]);
    assert list == list[..i] + list[i..];
    AbsoluteConcat(list[..i], list[i..], now);
    assert list[i..][1..] == list[i + 1..];
    if i + 1 < |list| {
      var m := list[i + 1].(dticks := list[i + 1].dticks + list[i].dticks);
      var tail := [m] + list[i + 2..];
      assert Removed(list, i) == list[..i] + tail;
      AbsoluteConcat(list[..i], tail, now);
      assert tail[1..] == list[i + 2..] && list[i + 1..][1..] == list[i + 2..];
      assert Absolute(list[i..], at)[1..] == Absolute(tail, at);
    }
  }

  /** Moving the clock forward by d and the first delta back by d changes no deadline. */
  lemma {:induction false} ShiftedAbsolute(list: seq<Node>, d: int, now: int)
    requires list != []
    ensures Absolute(list[0 := list[0].(dticks := list[0].dticks - d)], now + d) == Absolute(list, now)
  {
    assert list[0 := list[0].(dticks := list[0].dticks - d)][1..] == list[1..];
  }

  lemma {:induction false} InsertKeeps(list: seq<Node>, a: Agenda, i: nat, n: Node, x: Armed)
    requires WellFormed(a) && Lists(Absolute(list, a.now), a.armed)
    requires i <= |list| && n.id !in a.armed && x.serial == a.serial
    requires x.due == a.now + Total(list[..i]) + n.dticks
    requires forall k | 0 <= k < i :: Absolute(list, a.now)[k].due <= x.due
    requires forall k | i <= k < |list| :: Absolute(list, a.now)[k].due > x.due
    ensures Lists(Absolute(Inserted(list, i, n), a.now), a.armed[n.id := x])
  {
    ListsInsert(Absolute(list, a.now), a.armed, i, n.id, x);
    InsertedAbsolute(list, i, n, a.now);
  }

  /** Arming a timeout `dticks` away where the walk puts it. */
  lemma {:induction false} AddKeeps(list: seq<Node>, a: Agenda, i: nat, n: Node, dticks: int, ticks: int, elapsed: nat)
    requires WellFormed(a) && Lists(Absolute(list, a.now), a.armed) && ticks != K_TICKS_FOREVER
    requires i <= |list| && n.id !in a.armed && Total(list[..i]) + n.dticks == dticks
    requires dticks == if TickAbs(ticks) >= 0 then Max(1, TickAbs(ticks) - a.now) else ticks + 1 + elapsed
    requires forall k | 0 <= k < i :: Absolute(list, a.now)[k].due <= a.now + dticks
    requires forall k | i <= k < |list| :: Absolute(list, a.now)[k].due > a.now + dticks
    ensures var b := Arm(a, n.id, ticks, elapsed);
      && WellFormed(b) && b.now == a.now && b.timers == a.timers
      && Lists(Absolute(Inserted(list, i, n), a.now), b.armed)
  {
    var x := Armed(a.now + dticks, a.serial);
    ArmFuture(a, n.id, ticks, elapsed);
    assert Arm(a, n.id, ticks, elapsed).armed == a.armed[n.id := x];
    hide WellFormed, Lists, Absolute, Total, Inserted;
    InsertKeeps(list, a, i, n, x);
  }

  lemma {:induction false} RemoveKeeps(list: seq<Node>, a: Agenda, i: nat)
    requires WellFormed(a) && Lists(Absolute(list, a.now), a.armed) && i < |list|
    ensures var b := Disarm(a, list[i].id).agenda;
      WellFormed(b) && Lists(Absolute(Removed(list, i), a.now), b.armed)
  {
    AbsoluteAt(list, a.now, i);
    ListsRemove(Absolute(list, a.now), a.armed, i);
    RemovedAbsolute(list, i, a.now);
    DisarmFuture(a, list[i].id);
  }

  // ---------------------------------------------------------------- the head of the list

  lemma {:induction false} HeadIsEarliest(list: seq<Node>, a: Agenda)
    requires WellFormed(a) && Lists(Absolute(list, a.now), a.armed) && list != []
    ensures |a.armed| > 0 && Earliest(a) == list[0].id
    ensures a.armed[list[0].id].due == a.now + list[0].dticks
  {
    var s := Absolute(list, a.now);
    AbsoluteAt(list, a.now, 0);
    assert s[0].id in a.armed.Keys && |a.armed.Keys| == |a.armed|;
    var first := s[0].id;
    forall x | x in a.armed && x != first ensures Before(a.armed[first], a.armed[x]) {
      assert Listed(s, x);
      var i :| 0 <= i < |s| && s[i].id == x;
    }
    assert IsEarliest(a.armed, first);
  }

  lemma {:induction false} HeadDecides(list: seq<Node>, a: Agenda, end: nat)
    requires WellFormed(a) && Lists(Absolute(list, a.now), a.armed)
    ensures AnyDue(a, end) <==> list != [] && list[0].dticks <= end - a.now
  {
    var s := Absolute(list, a.now);
    if list != [] {
      HeadIsEarliest(list, a);
      var first := list[0].id;
      if AnyDue(a, end) {
        var x :| x in a.armed && a.armed[x].due <= end;
        assert x == first || Before(a.armed[first], a.armed[x]);
      }
    } else {
      assert forall x :: x in a.armed ==> Listed(s, x);
    }
  }

  // How long until each deadline, seen from the clock.

  function TicksLeft(a: Agenda, remaining: int, hw: nat, id: Id): int
    requires id in a.armed
  {
    a.armed[id].due - a.now - Elapsed(remaining, hw)
  }

  ghost predicate AllFar(a: Agenda, remaining: int, hw: nat) {
    forall id | id in a.armed :: TicksLeft(a, remaining, hw, id) > INT_MAX
  }

  /** Sleeping that long passes no deadline, unless one is due already. */
  ghost predicate NonePassed(a: Agenda, remaining: int, hw: nat, ticks: int) {
    forall id | id in a.armed :: ticks == 0 || ticks <= TicksLeft(a, remaining, hw, id)
  }

  ghost predicate Attained(a: Agenda, remaining: int, hw: nat, ticks: int) {
    exists id :: id in a.armed && ticks == Max(0, TicksLeft(a, remaining, hw, id))
  }

  /** The head of the list is the first to come. */
  lemma {:induction false} HeadIsFirst(list: seq<Node>, a: Agenda, remaining: int, hw: nat)
    requires WellFormed(a) && Lists(Absolute(list, a.now), a.armed) && list != []
    ensures list[0].id in a.armed && TicksLeft(a, remaining, hw, list[0].id) == list[0].dticks - Elapsed(remaining, hw)
    ensures forall id | id in a.armed :: TicksLeft(a, remaining, hw, list[0].id) <= TicksLeft(a, remaining, hw, id)
  {
    HeadIsEarliest(list, a);
    var first := list[0].id;
    forall id | id in a.armed ensures a.armed[first].due <= a.armed[id].due {
      assert id == first || Before(a.armed[first], a.armed[id]);
    }
  }

  lemma {:induction false} NoneListed(list: seq<Node>, a: Agenda)
    requires Lists(Absolute(list, a.now), a.armed) && list == []
    ensures a.armed.Keys == {}
  {
    assert forall x :: x in a.armed ==> Listed(Absolute(list, a.now), x);
  }

  lemma {:induction false} RetimedValid(a: Agenda, timers: map<Id, Timer>)
    requires WellFormed(a)
    ensures WellFormed(a.(timers := timers))
  {
  }

  function FiredIds(log: seq<Event>): seq<Id> {
    if log == [] then []
    else (if log[0].Fired? then [log[0].id] else []) + FiredIds(log[1..])
  }

  lemma {:induction false} FiredIdsConcat(x: seq<Event>, y: seq<Event>)
    ensures FiredIds(x + y) == FiredIds(x) + FiredIds(y)
    decreases x
  {
    if x == [] {
      assert x + y == y;
    } else {
      assert (x + y)[0] == x[0] && (x + y)[1..] == x[1..] + y;
      FiredIdsConcat(x[1..], y);
    }
  }

  lemma {:induction false} NoFiredIds(log: seq<Event>)
    requires forall e | e in log :: !e.Fired?
    ensures FiredIds(log) == []
    decreases log
  {
    if log != [] { NoFiredIds(log[1..]); }
  }

  // ---------------------------------------------------------------- the queue

  class TimeoutQueue {
    var list: seq<Node>                // timeout_list
    var currTick: nat                  // curr_tick
    var announceRemaining: int         // announce_remaining
    var timers: map<Id, Timer>         // period and status of each struct k_timer
    ghost var agenda: Agenda

    ghost predicate Valid()
      reads this
    {
      && WellFormed(agenda)
      && agenda.now == currTick && agenda.timers == timers
      && Lists(Absolute(list, currTick), agenda.armed)
    }

    constructor ()
      ensures Valid() && agenda == Agenda(0, map[], 0, map[]) && announceRemaining == 0
    {
      list, currTick, announceRemaining, timers := [], 0, 0, map[];
      agenda := Agenda(0, map[], 0, map[]);
    }

    /** sys_dnode_is_linked() together with the node's place in the list. */
    method Find(id: Id) returns (i: nat)
      requires Valid()
      ensures i <= |list|
      ensures i < |list| ==> list[i].id == id && id in agenda.armed
      ensures i == |list| ==> id !in agenda.armed
    {
      i := 0;
      while i < |list| && list[i].id != id
        invariant i <= |list|
        invariant forall k | 0 <= k < i :: list[k].id != id
      {
        i := i + 1;
      }
      ghost var s := Absolute(list, currTick);
      AbsoluteIds(list, currTick);
      assert id in agenda.armed ==> Listed(s, id);
    }

    /** z_add_timeout(): only the new timeout's deadline is added, all others stay. */
    method AddTimeout(id: Id, ticks: int, hw: nat)
      requires Valid() && id !in agenda.armed
      modifies this`list, this`agenda
      ensures Valid()
      ensures agenda == Arm(old(agenda), id, ticks, Elapsed(announceRemaining, hw))
      ensures ticks >= 0 ==>
        id in agenda.armed && agenda.armed[id].due == currTick + (if announceRemaining == 0 then hw else 0) + ticks + 1
      ensures ticks < -1 ==> id in agenda.armed && agenda.armed[id].due == if -2 - ticks > currTick then -2 - ticks else currTick + 1
      ensures forall x | x in old(agenda).armed :: x in agenda.armed && agenda.armed[x] == old(agenda).armed[x]
    {
      AddDue(agenda, announceRemaining, id, ticks, hw);
      if ticks == K_TICKS_FOREVER { return; }
      var dticks := if TickAbs(ticks) >= 0 then Max(1, TickAbs(ticks) - currTick)
                    else ticks + 1 + Elapsed(announceRemaining, hw);
      var i, to := FindSlot(dticks);
      AddKeeps(list, agenda, i, Node(id, to), dticks, ticks, Elapsed(announceRemaining, hw));
      hide *;
      Link(i, Node(id, to));
      agenda := Arm(agenda, id, ticks, Elapsed(announceRemaining, hw));
    }

    /** sys_dlist_insert() or sys_dlist_append(), and the lowering of the next distance. */
    method Link(i: nat, n: Node)
      requires i <= |list|
      modifies this`list
      ensures list == Inserted(old(list), i, n)
    {
      if i < |list| {
        var t := list[i];
        list := list[..i] + [n] + [t.(dticks := t.dticks - n.dticks)] + list[i + 1..];
      } else {
        list := list + [n];
      }
    }

    /** The walk of z_add_timeout(): where a timeout `dticks` away goes, and its delta there. */
    method FindSlot(dticks: int) returns (i: nat, to: int)
      requires Valid() && dticks >= 0
      ensures i <= |list| && Total(list[..i]) + to == dticks
      ensures forall k | 0 <= k < i :: Absolute(list, currTick)[k].due <= currTick + dticks
      ensures forall k | i <= k < |list| :: Absolute(list, currTick)[k].due > currTick + dticks
    {
      i, to := 0, dticks;
      DeltasNonNegative(list, agenda);
      hide WellFormed, Lists, Absolute;
      while i < |list| && list[i].dticks <= to
        invariant i <= |list| && to >= 0
        invariant Total(list[..i]) + to == dticks
        invariant forall k | 0 <= k < i :: Absolute(list, currTick)[k].due <= currTick + dticks
      {
        AbsoluteAt(list, currTick, i);
        assert list[..i + 1] == list[..i] + [list[i]];
        TotalConcat(list[..i], [list[i]]);
        to := to - list[i].dticks;
        i := i + 1;
      }
      LaterThan(i, currTick + dticks);
    }

    lemma {:induction false} LaterThan(i: nat, due: int)
      requires Valid() && i <= |list|
      requires i < |list| ==> currTick + Total(list[..i]) + list[i].dticks > due
      ensures forall k | i <= k < |list| :: Absolute(list, currTick)[k].due > due
    {
      if i < |list| {
        AbsoluteAt(list, currTick, i);
        ghost var s := Absolute(list, currTick);
        forall k | i <= k < |list| ensures s[k].due > due {
          assert k == i || Before(agenda.armed[s[i].id], agenda.armed[s[k].id]);
        }
      }
    }

    /** z_abort_timeout(): takes exactly this timeout off, or reports that it was not linked. */
    method AbortTimeout(id: Id) returns (ret: int, ghost log: seq<Event>)
      requires Valid()
      modifies this`list, this`agenda
      ensures Valid()
      ensures Outcome(agenda, log) == Disarm(old(agenda), id)
      ensures agenda.armed == old(agenda).armed - {id} && agenda.timers == old(agenda).timers
      ensures ret == if id in old(agenda).armed then 0 else -EINVAL
    {
      AbortOff(agenda, announceRemaining, id);
      ret, log := -EINVAL, Disarm(agenda, id).log;
      var i := Find(id);
      if i < |list| {
        RemoveKeeps(list, agenda, i);
        hide WellFormed, Lists, Absolute, Removed;
        RemoveTimeout(i);
        agenda := Disarm(agenda, id).agenda;
        ret := 0;
      }
    }

    method RemoveTimeout(i: nat)
      requires i < |list|
      modifies this`list
      ensures list == Removed(old(list), i)
    {
      var t := list[i];
      if i + 1 < |list| {
        list := list[i + 1 := list[i + 1].(dticks := list[i + 1].dticks + t.dticks)];
      }
      list := list[..i] + list[i + 1..];
    }

    /** timeout_rem(): the ticks left until the deadline, or 0 for a timeout that is not linked. */
    method Remaining(id: Id, hw: nat) returns (ticks: int)
      requires Valid()
      ensures ticks == if id in agenda.armed
                       then agenda.armed[id].due - currTick - Elapsed(announceRemaining, hw) else 0
    {
      var at := Find(id);
      if at == |list| { return 0; }
      ticks := 0;
      for i := 0 to at + 1
        invariant ticks == Total(list[..i])
      {
        assert list[..i + 1] == list[..i] + [list[i]];
        TotalConcat(list[..i], [list[i]]);
        ticks := ticks + list[i].dticks;
      }
      AbsoluteAt(list, currTick, at);
      assert list[..at + 1] == list[..at] + [list[at]];
      TotalConcat(list[..at], [list[at]]);
      assert Absolute(list, currTick)[at].id == id;
      ticks := ticks - Elapsed(announceRemaining, hw);
    }

    /** z_timeout_expires(): equals the deadline exactly when no time has elapsed since the
        last announcement; it is early by the elapsed ticks otherwise. */
    method Expires(id: Id, hw: nat) returns (tick: int)
      requires Valid()
      ensures id in agenda.armed ==>
        && tick == agenda.armed[id].due - Elapsed(announceRemaining, hw)
        && (tick == agenda.armed[id].due <==> Elapsed(announceRemaining, hw) == 0)
      ensures id !in agenda.armed ==> tick == currTick
    {
      var rem := Remaining(id, hw);
      tick := currTick + rem;
    }

    /** next_timeout(), with MAX_WAIT as a parameter: how long the clock may sleep without passing any
        deadline.  Up to INT_MAX ticks that is the time to the earliest one; if all are further away
        it is MAX_WAIT, which is safe too unless it stands for forever. */
    method NextTimeout(hw: nat, maxWait: int) returns (ret: int)
      requires Valid()
      ensures AllFar(agenda, announceRemaining, hw) ==> ret == maxWait
      ensures !AllFar(agenda, announceRemaining, hw) ==>
        ret >= 0 && NonePassed(agenda, announceRemaining, hw, ret) && Attained(agenda, announceRemaining, hw, ret)
      ensures 0 <= maxWait <= INT_MAX ==> ret >= 0 && NonePassed(agenda, announceRemaining, hw, ret)
    {
      hide WellFormed, Lists, Absolute;
      var e := Elapsed(announceRemaining, hw);
      if list == [] {
        NoneListed(list, agenda);
        ret := maxWait;
      } else {
        HeadIsFirst(list, agenda, announceRemaining, hw);
        ret := if list[0].dticks - e > INT_MAX then maxWait else Max(0, list[0].dticks - e);
      }
    }

    /** z_impl_k_timer_start() */
    method TimerStart(id: Id, duration: int, period: int, hw: nat) returns (ghost log: seq<Event>)
      requires Valid()
      modifies this`list, this`timers, this`agenda
      ensures Valid()
      ensures Outcome(agenda, log) == Apply(old(agenda), announceRemaining, Start(id, duration, period, hw))
      ensures duration == -1 ==> agenda == old(agenda)
      ensures duration >= 0 ==>
        var elapsed := if announceRemaining == 0 then hw else 0;
        id in agenda.armed && agenda.armed[id].due == currTick + elapsed + (if duration > 1 then duration else 1)
      ensures duration < -1 ==>
        id in agenda.armed && agenda.armed[id].due == if -2 - duration > currTick then -2 - duration else currTick + 1
      ensures duration != -1 ==> timers == old(timers)[id := Timer(period, 0)]
    {
      StartDue(agenda, announceRemaining, id, duration, period, hw);
      log := [];
      if duration == K_TICKS_FOREVER { return; }
      var delay := duration;
      if TickAbs(delay) < 0 { delay := Max(delay - 1, 0); }
      var _, l := AbortTimeout(id);
      log := l;
      timers := timers[id := Timer(period, 0)];
      RetimedValid(agenda, timers);
      agenda := agenda.(timers := timers);
      AddTimeout(id, delay, hw);
    }

    /** z_timer_expiration_handler(), up to the user's callback. */
    method TimerExpire(id: Id, hw: nat) returns (ghost log: seq<Event>)
      requires Valid() && id in timers
      modifies this`list, this`timers, this`agenda
      ensures Valid()
      ensures Outcome(agenda, log) == Apply(old(agenda), announceRemaining, Expire(id, hw))
      ensures
        var t := old(timers)[id];
        if id in old(agenda).armed then agenda == old(agenda)
        else
          && timers == old(timers)[id := Timer(t.period, t.status + 1)]
          && (id in agenda.armed <==> t.period != 0 && t.period != -1)
          && (id in agenda.armed ==>
                var elapsed := if announceRemaining == 0 then hw else 0;
                agenda.armed[id].due == currTick + elapsed + (if t.period > 1 then t.period else 1))
    {
      if id !in agenda.armed { ExpireDue(agenda, announceRemaining, id, hw); }
      log := [];
      var i := Find(id);
      if i < |list| { return; }
      hide WellFormed, Lists, Absolute;
      var t := timers[id];
      timers := timers[id := t.(status := t.status + 1)];
      RetimedValid(agenda, timers);
      agenda := agenda.(timers := timers);
      if Repeats(t.period) {
        var next := Max(t.period - 1, 0);
        var uptime := currTick + Elapsed(announceRemaining, hw);
        AddTimeout(id, AbsTicks(uptime + 1 + next), hw);
        log := [Rearmed(id, Elapsed(announceRemaining, hw))];
      }
    }

    /** Runs the calls a handler makes. */
    method Perform(cs: seq<Cmd>) returns (ghost log: seq<Event>)
      requires Valid()
      modifies this`list, this`timers, this`agenda
      ensures Valid()
      ensures Outcome(agenda, log) == ApplyAll(old(agenda), announceRemaining, cs)
    {
      log := [];
      var k := 0;
      hide WellFormed, Lists, Absolute, Apply;
      while k < |cs|
        invariant k <= |cs| && Valid()
        invariant var rest := ApplyAll(agenda, announceRemaining, cs[k..]);
          ApplyAll(old(agenda), announceRemaining, cs) == Outcome(rest.agenda, log + rest.log)
      {
        ghost var l := PerformOne(cs[k]);
        assert cs[k..][1..] == cs[k + 1..];
        ghost var rest := ApplyAll(agenda, announceRemaining, cs[k + 1..]);
        assert log + (l + rest.log) == (log + l) + rest.log;
        log := log + l;
        k := k + 1;
      }
      assert cs[k..] == [];
    }

    method PerformOne(c: Cmd) returns (ghost log: seq<Event>)
      requires Valid()
      modifies this`list, this`timers, this`agenda
      ensures Valid()
      ensures Outcome(agenda, log) == Apply(old(agenda), announceRemaining, c)
    {
      log := [];
      match c
      case Add(id, ticks, hw) =>
        var i := Find(id);
        if i == |list| { AddTimeout(id, ticks, hw); }
      case Abort(id) =>
        var _, l := AbortTimeout(id);
        log := l;
      case Start(id, duration, period, hw) =>
        log := TimerStart(id, duration, period, hw);
      case Expire(id, hw) =>
        if id in timers { log := TimerExpire(id, hw); }
    }

    /** One turn of the announcement loop: takes the first timeout off and runs its handler,
        with announce_remaining lowered only afterwards. */
    method FireFirst(k: nat, script: Script) returns (id: Id, ghost log: seq<Event>)
      requires Valid() && list != [] && 0 <= list[0].dticks <= announceRemaining && |agenda.armed| > 0
      modifies this
      ensures Valid()
      ensures id == Earliest(old(agenda))
      ensures Outcome(agenda, log) == AfterHandler(old(agenda), old(currTick) + old(announceRemaining), k, script)
      ensures currTick + announceRemaining == old(currTick) + old(announceRemaining)
      ensures announceRemaining == old(announceRemaining) - old(list)[0].dticks
    {
      hide WellFormed, Lists, Absolute, Take, ApplyAll, Earliest;
      HeadIsEarliest(list, agenda);
      id := list[0].id;
      var dt := list[0].dticks;
      Unlink();
      log := Perform(script(k, id, currTick));
      announceRemaining := announceRemaining - dt;
    }

    /** The clock moves to the first timeout, which is unlinked. */
    method Unlink()
      requires Valid() && list != [] && |agenda.armed| > 0
      modifies this`list, this`currTick, this`agenda
      ensures Valid() && agenda == Take(old(agenda)) && currTick == old(currTick) + old(list)[0].dticks
    {
      TakeFirst(list, agenda);
      hide WellFormed, Lists, Absolute, Removed, Earliest;
      var t := list[0];
      currTick := currTick + t.dticks;
      list := list[0 := t.(dticks := 0)];
      RemoveTimeout(0);
      agenda := Take(agenda);
    }

    /** sys_clock_announce(): the list does what the agenda says, handlers included; the clock
        moves by exactly `ticks`, and the loop ends whatever the handlers arm. */
    method Announce(ticks: nat, script: Script) returns (fired: seq<Id>, ghost log: seq<Event>)
      requires Valid() && announceRemaining == 0
      modifies this
      ensures Valid() && announceRemaining == 0
      ensures currTick == old(currTick) + ticks
      ensures Outcome(agenda, log) == Announced(old(agenda), old(currTick) + ticks, 0, script)
      ensures fired == FiredIds(log)
    {
      hide WellFormed, Lists, Absolute, AnyDue, DueNow, Announced, AfterHandler, FiredIds;
      announceRemaining := ticks;
      fired, log := [], [];
      var k := 0;
      ghost var end: nat := currTick + ticks;
      NoFiredIds([]);
      while list != [] && list[0].dticks <= announceRemaining
        invariant Valid() && announceRemaining >= 0 && currTick + announceRemaining == end
        invariant fired == FiredIds(log)
        invariant var rest := Announced(agenda, end, k, script);
          Announced(old(agenda), end, 0, script) == Outcome(rest.agenda, log + rest.log)
        decreases announceRemaining, |DueNow(agenda)|
      {
        HeadDecides(list, agenda, end);
        HandlerProgress(agenda, end, k, script);
        HeadIsEarliest(list, agenda);
        DeltasNonNegative(list, agenda);
        AnnouncedTurn(agenda, end, k, script, log);
        ghost var first := [Fired(list[0].id, agenda.armed[list[0].id])];
        var id, l := FireFirst(k, script);
        fired, log := fired + [id], log + (first + l);
        k := k + 1;
      }
      HeadDecides(list, agenda, end);
      LastStretch(list, agenda, end);
      if list != [] {
        list := list[0 := list[0].(dticks := list[0].dticks - announceRemaining)];
      }
      currTick := currTick + announceRemaining;
      agenda := agenda.(now := currTick);
      announceRemaining := 0;
    }
  }

  /** How one turn of the loop extends the log. */
  lemma {:induction false} AnnouncedTurn(a: Agenda, end: nat, k: nat, script: Script, log: seq<Event>)
    requires WellFormed(a) && AnyDue(a, end) && a.now <= end && |a.armed| > 0
    requires var b := AfterHandler(a, end, k, script).agenda; WellFormed(b) && b.now <= end
    ensures var o := AfterHandler(a, end, k, script);
      && var first := [Fired(Earliest(a), a.armed[Earliest(a)])];
      && var rest := Announced(o.agenda, end, k + 1, script);
      && var all := Announced(a, end, k, script);
      && Outcome(all.agenda, log + all.log) == Outcome(rest.agenda, log + (first + o.log) + rest.log)
      && FiredIds(log + (first + o.log)) == FiredIds(log) + [Earliest(a)]
  {
    var o := AfterHandler(a, end, k, script);
    var first := [Fired(Earliest(a), a.armed[Earliest(a)])];
    var rest := Announced(o.agenda, end, k + 1, script);
    var all := Announced(a, end, k, script);
    assert all == Outcome(rest.agenda, first + o.log + rest.log);
    ApplyAllFiresNothing(Take(a), end - a.now, script(k, Earliest(a), Take(a).now));
    OneMoreFired(log, first[0], o.log);
    hide *;
    assert log + (first + o.log + rest.log) == log + (first + o.log) + rest.log;
  }

  lemma {:induction false} OneMoreFired(log: seq<Event>, e: Event, quiet: seq<Event>)
    requires e.Fired? && forall x | x in quiet :: !x.Fired?
    ensures FiredIds(log + ([e] + quiet)) == FiredIds(log) + [e.id]
  {
    FiredIdsConcat(log, [e] + quiet);
    FiredIdsConcat([e], quiet);
    assert [e][1..] == [];
    NoFiredIds(quiet);
  }

  lemma {:induction false} LastStretch(list: seq<Node>, a: Agenda, end: nat)
    requires WellFormed(a) && Lists(Absolute(list, a.now), a.armed) && a.now <= end && !AnyDue(a, end)
    ensures WellFormed(a.(now := end))
    ensures forall k: nat, script: Script :: Announced(a, end, k, script) == Outcome(a.(now := end), [])
    ensures Lists(Absolute(if list == [] then []
                           else list[0 := list[0].(dticks := list[0].dticks - (end - a.now))], end), a.armed)
  {
    if list != [] { ShiftedAbsolute(list, end - a.now, a.now); }
  }

  lemma {:induction false} TakeFirst(list: seq<Node>, a: Agenda)
    requires WellFormed(a) && Lists(Absolute(list, a.now), a.armed) && list != []
    ensures |a.armed| > 0
    ensures Take(a).now == a.now + list[0].dticks
    ensures Lists(Absolute(Removed(list[0 := list[0].(dticks := 0)], 0), Take(a).now), Take(a).armed)
  {
    HeadIsEarliest(list, a);
    hide WellFormed, Lists, Absolute, Removed;
    var d := list[0].dticks;
    var zeroed := list[0 := list[0].(dticks := 0)];
    assert list[0].(dticks := list[0].dticks - d) == list[0].(dticks := 0);
    ShiftedAbsolute(list, d, a.now);
    RemovedAbsolute(zeroed, 0, a.now + d);
    ListsRemove(Absolute(list, a.now), a.armed, 0);
  }
}
