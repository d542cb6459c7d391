/** The message queue of kernel/msg_q.c: a ring buffer of messages of one size and a single wait
    queue that holds blocked getters or blocked putters.  Pointers into the buffer are counted in
    messages.  Every method is one section under the queue's lock. */
module MessageQueues {
  import opened WaitQueues

  datatype Option<+T> = None | Some(value: T)

  /** What a blocked thread wants: a message, or to leave one. */
  datatype Want<Msg> = Getter | Putter(msg: Msg)

  /** Outcome of a call: done, refused at once, or now waiting. */
  datatype Outcome = Done | Refused | Blocked

  // ---------------------------------------------------------------- the ring

  /** The slot `i` places after slot `read`. */
  function At(read: nat, i: nat, max: nat): (k: nat)
    requires read < max && i <= max
    ensures k < max
  {
    if read + i < max then read + i else read + i - max
  }

  ghost function Ring<Msg>(buffer: seq<Msg>, read: nat, used: nat): (r: seq<Msg>)
    requires used <= |buffer| && read < |buffer|
    ensures |r| == used && forall i | 0 <= i < used :: r[i] == buffer[At(read, i, |buffer|)]
  {
    seq(used, i requires 0 <= i < used => buffer[At(read, i, |buffer|)])
  }

  lemma {:induction false} RingPut<Msg>(buffer: seq<Msg>, read: nat, used: nat, m: Msg)
    requires used < |buffer| && read < |buffer|
    ensures Ring(buffer[At(read, used, |buffer|) := m], read, used + 1) == Ring(buffer, read, used) + [m]
  {
  }

  lemma {:induction false} RingGet<Msg>(buffer: seq<Msg>, read: nat, used: nat)
    requires 0 < used <= |buffer| && read < |buffer|
    ensures Ring(buffer, At(read, 1, |buffer|), used - 1) == Ring(buffer, read, used)[1..]
    ensures Ring(buffer, read, used)[0] == buffer[read]
  {
    var r, s := Ring(buffer, At(read, 1, |buffer|), used - 1), Ring(buffer, read, used);
    forall i | 0 <= i < used - 1 ensures r[i] == s[i + 1] {
      assert At(At(read, 1, |buffer|), i, |buffer|) == At(read, i + 1, |buffer|);
    }
  }

  // ---------------------------------------------------------------- the one stream

  /** The messages that blocked putters hold, in queue order. */
  function Held<Msg>(q: seq<Waiter<Want<Msg>>>): (r: seq<Msg>)
  {
    if q == [] then []
    else if q[0].want.Putter? then [q[0].want.msg] + Held(q[1..])
    else Held(q[1..])
  }

  ghost predicate AllGetters<Msg>(q: seq<Waiter<Want<Msg>>>) {
    forall i | 0 <= i < |q| :: q[i].want.Getter?
  }

  ghost predicate AllPutters<Msg>(q: seq<Waiter<Want<Msg>>>) {
    forall i | 0 <= i < |q| :: q[i].want.Putter?
  }

  lemma {:induction false} GettersHoldNothing<Msg>(q: seq<Waiter<Want<Msg>>>)
    requires AllGetters(q)
    ensures Held(q) == []
    decreases q
  {
    if q != [] { GettersHoldNothing(q[1..]); }
  }

  lemma {:induction false} EnqueueKind<Msg>(q: seq<Waiter<Want<Msg>>>, w: Waiter<Want<Msg>>)
    ensures AllGetters(q) && w.want.Getter? ==> AllGetters(Enqueue(q, w))
    ensures AllPutters(q) && w.want.Putter? ==> AllPutters(Enqueue(q, w))
  {
    hide Enqueue;
    EnqueueAt(q, w);
    var i, r := Slot(q, w.prio), Enqueue(q, w);
    assert forall k | 0 <= k < |r| :: r[k] == if k < i then q[k] else if k == i then w else q[k - 1];
  }

  lemma {:induction false} WithoutKind<Msg>(q: seq<Waiter<Want<Msg>>>, t: Tid)
    ensures AllGetters(q) ==> AllGetters(Without(q, t))
    ensures AllPutters(q) ==> AllPutters(Without(q, t))
    decreases q
  {
    if q != [] {
      var rest := q[1..];
      assert forall i | 0 <= i < |rest| :: rest[i] == q[i + 1];
      WithoutKind(rest, t);
    }
  }

  lemma {:induction false} HeldConcat<Msg>(a: seq<Waiter<Want<Msg>>>, b: seq<Waiter<Want<Msg>>>)
    ensures Held(a + b) == Held(a) + Held(b)
    decreases a
  {
    if a == [] {
      assert a + b == b;
    } else {
      assert (a + b)[0] == a[0] && (a + b)[1..] == a[1..] + b;
      HeldConcat(a[1..], b);
    }
  }

  /** A blocked putter's message takes its place among those of the other putters, which keep their
      order. */
  lemma {:induction false} EnqueueHeld<Msg>(q: seq<Waiter<Want<Msg>>>, w: Waiter<Want<Msg>>)
    requires w.want.Putter?
    ensures
      var i := Slot(q, w.prio);
      Held(q) == Held(q[..i]) + Held(q[i..]) && Held(Enqueue(q, w)) == Held(q[..i]) + [w.want.msg] + Held(q[i..])
  {
    hide Enqueue, Slot;
    EnqueueAt(q, w);
    var i := Slot(q, w.prio);
    HeldConcat(q[..i], q[i..]);
    assert q == q[..i] + q[i..];
    HeldConcat(q[..i] + [w], q[i..]);
    HeldConcat(q[..i], [w]);
    assert [w][1..] == [];
    assert Held([w]) == [w.want.msg];
  }

  // ---------------------------------------------------------------- calls on values

  datatype State<Msg> = State(cap: nat, buf: seq<Msg>, waiters: seq<Waiter<Want<Msg>>>)

  datatype Step<Msg> =
    | Put(t: Tid, prio: int, m: Msg, noWait: bool) | Get(t: Tid, prio: int, noWait: bool) | Purge | TimeOut(t: Tid)

  /** What a call did: the new state, the outcome, the messages handed out, taken in, and dropped. */
  datatype Effect<Msg> = Effect(
    state: State<Msg>, outcome: Outcome, delivered: seq<Msg>, accepted: seq<Msg>, dropped: seq<Msg>)

  /** Everything put and not yet got: the buffered messages, then those of blocked putters. */
  function Stream<Msg>(s: State<Msg>): seq<Msg> { s.buf + Held(s.waiters) }

  /** Getters wait only at an empty queue, putters only at a full one. */
  ghost predicate Inv<Msg>(s: State<Msg>) {
    && |s.buf| <= s.cap && s.cap > 0
    && ((AllGetters(s.waiters) && (s.waiters != [] ==> s.buf == [])) || (AllPutters(s.waiters) && |s.buf| == s.cap))
  }

  /** The waiters of one thread. */
  function Only<Msg>(q: seq<Waiter<Want<Msg>>>, t: Tid): seq<Waiter<Want<Msg>>> {
    if q == [] then []
    else if q[0].tid == t then [q[0]] + Only(q[1..], t)
    else Only(q[1..], t)
  }

  function Next<Msg>(s: State<Msg>, step: Step<Msg>): Effect<Msg> {
    match step
    case Put(t, prio, m, noWait) =>
      if |s.buf| < s.cap then
        if s.waiters != [] then Effect(s.(waiters := s.waiters[1..]), Done, [m], [m], [])
        else Effect(s.(buf := s.buf + [m]), Done, [], [m], [])
      else if noWait then Effect(s, Refused, [], [], [])
      else Effect(s.(waiters := Enqueue(s.waiters, Waiter(t, prio, Putter(m)))), Blocked, [], [m], [])
    case Get(t, prio, noWait) =>
      if s.buf != [] then
        var admitted := Held(s.waiters[..if s.waiters == [] then 0 else 1]);
        Effect(s.(buf := s.buf[1..] + admitted, waiters := if s.waiters == [] then [] else s.waiters[1..]),
               Done, [s.buf[0]], [], [])
      else if noWait then Effect(s, Refused, [], [], [])
      else Effect(s.(waiters := Enqueue(s.waiters, Waiter(t, prio, Getter))), Blocked, [], [], [])
    case Purge => Effect(s.(buf := [], waiters := []), Done, [], [], Stream(s))
    case TimeOut(t) => Effect(s.(waiters := Without(s.waiters, t)), Done, [], [], Held(Only(s.waiters, t)))
  }

  /** How calls end: a put goes through exactly if the queue is not full and a get if it is not empty;
      otherwise the call is refused if it may not wait and waits if it may.  A message handed over is
      delivered at once; whoever waits is in the queue with what it wants. */
  lemma {:induction false} Outcomes<Msg>(s: State<Msg>, step: Step<Msg>)
    ensures step.Put? ==>
      var e := Next(s, step);
      && (e.outcome == Done <==> |s.buf| < s.cap)
      && (e.outcome == Refused <==> |s.buf| >= s.cap && step.noWait)
      && (e.outcome == Blocked <==> |s.buf| >= s.cap && !step.noWait)
      && e.accepted == (if e.outcome == Refused then [] else [step.m])
      && e.delivered == (if e.outcome == Done && s.waiters != [] then [step.m] else [])
      && (e.outcome == Refused ==> e.state == s)
      && (e.outcome == Done && s.waiters == [] ==> e.state.buf == s.buf + [step.m] && e.state.waiters == [])
      && (e.outcome == Done && s.waiters != [] ==> e.state.buf == s.buf && e.state.waiters == s.waiters[1..])
      && (e.outcome == Blocked ==> Waiter(step.t, step.prio, Putter(step.m)) in e.state.waiters && e.state.buf == s.buf)
    ensures step.Get? ==>
      var e := Next(s, step);
      && (e.outcome == Done <==> s.buf != [])
      && (e.outcome == Refused <==> s.buf == [] && step.noWait)
      && (e.outcome == Blocked <==> s.buf == [] && !step.noWait)
      && e.delivered == (if e.outcome == Done then [s.buf[0]] else [])
      && (e.outcome == Refused ==> e.state == s)
      && (e.outcome == Done ==> e.state.waiters == if s.waiters == [] then [] else s.waiters[1..])
      && (e.outcome == Blocked ==> Waiter(step.t, step.prio, Getter) in e.state.waiters && e.state.buf == s.buf)
  {
    hide Held, Enqueue;
    match step
    case Put(t, prio, m, _) =>
      EnqueueAt(s.waiters, Waiter(t, prio, Putter(m)));
    case Get(t, prio, _) =>
      EnqueueAt(s.waiters, Waiter(t, prio, Getter));
    case _ =>
  }

  /** A purge leaves nothing and nobody; a timeout takes exactly the thread's own entries. */
  lemma {:induction false} Departures<Msg>(s: State<Msg>, t: Tid)
    ensures var e := Next(s, Step<Msg>.Purge); e.state.buf == [] && e.state.waiters == [] && e.dropped == Stream(s) && e.delivered == []
    ensures var e := Next(s, Step<Msg>.TimeOut(t));
      && e.state.buf == s.buf && e.delivered == [] && e.accepted == []
      && (forall w | w in e.state.waiters :: w in s.waiters && w.tid != t)
      && (forall w | w in s.waiters && w.tid != t :: w in e.state.waiters)
  {
    WithoutMembers(s.waiters, t);
  }

  lemma {:induction false} NextInv<Msg>(s: State<Msg>, step: Step<Msg>)
    requires Inv(s)
    ensures Inv(Next(s, step).state)
  {
    hide Held, Enqueue, Without;
    match step
    case Put(t, prio, m, _) => EnqueueKind(s.waiters, Waiter(t, prio, Putter(m)));
    case Get(t, prio, _) =>
      EnqueueKind(s.waiters, Waiter(t, prio, Getter));
      if s.waiters != [] { HeldOne(s.waiters[..1]); } else { HeldNone(s.waiters); }
      KindRest(s.waiters);
    case Purge =>
    case TimeOut(t) =>
      WithoutKind(s.waiters, t);
      WithoutNone(s.waiters, t);
  }

  lemma {:induction false} KindRest<Msg>(q: seq<Waiter<Want<Msg>>>)
    ensures q != [] ==> (AllGetters(q) ==> AllGetters(q[1..])) && (AllPutters(q) ==> AllPutters(q[1..]))
    ensures q != [] ==> !(AllGetters(q) && AllPutters(q))
  {
    assert q != [] ==> q[0].want.Getter? != q[0].want.Putter?;
  }

  lemma {:induction false} HeldOne<Msg>(q: seq<Waiter<Want<Msg>>>)
    requires |q| == 1
    ensures Held(q) == if q[0].want.Putter? then [q[0].want.msg] else []
  {
    assert q[1..] == [];
  }

  /** Where a put enters the stream: behind the putters of its own or a higher priority. */
  function Ahead<Msg>(s: State<Msg>, step: Step<Msg>): seq<Msg> {
    if step.Put? then s.buf + Held(s.waiters[..Slot(s.waiters, step.prio)]) else Stream(s)
  }

  /** The messages of the waiting putters that a put overtakes. */
  function Behind<Msg>(s: State<Msg>, step: Step<Msg>): seq<Msg> {
    if step.Put? then Held(s.waiters[Slot(s.waiters, step.prio)..]) else []
  }

  lemma {:induction false} AheadBehind<Msg>(s: State<Msg>, step: Step<Msg>)
    ensures Stream(s) == Ahead(s, step) + Behind(s, step)
  {
    if step.Put? {
      hide Held, Slot;
      var i := Slot(s.waiters, step.prio);
      HeldConcat(s.waiters[..i], s.waiters[i..]);
      assert s.waiters == s.waiters[..i] + s.waiters[i..];
    }
  }

  /** What every put and every get does: the message delivered leaves at the head of the stream, the
      message accepted enters behind the putters of its thread's own or a higher priority. */
  lemma {:induction false} StepStream<Msg>(s: State<Msg>, step: Step<Msg>)
    requires Inv(s) && (step.Put? || step.Get?)
    ensures var e := Next(s, step); e.delivered + Stream(e.state) == Ahead(s, step) + e.accepted + Behind(s, step)
  {
    if step.Put? { PutStream(s, step); } else { GetStream(s, step); }
  }

  lemma {:induction false} PutStream<Msg>(s: State<Msg>, step: Step<Msg>)
    requires Inv(s) && step.Put?
    ensures var e := Next(s, step); e.delivered + Stream(e.state) == Ahead(s, step) + e.accepted + Behind(s, step)
    ensures |s.buf| < s.cap ==> Behind(s, step) == []
  {
    hide Held, Enqueue, Slot, Inv, AllGetters, AllPutters;
    AheadBehind(s, step);
    PutFacts(s);
    var a, b := Ahead(s, step), Behind(s, step);
    if |s.buf| < s.cap {
      assert Stream(s) == s.buf;
      assert b == [];
      assert a + [step.m] + [] == s.buf + [step.m];
    } else if step.noWait {
      assert [] + Stream(s) == a + [] + b;
    } else {
      var i, w := Slot(s.waiters, step.prio), Waiter(step.t, step.prio, Putter(step.m));
      EnqueueHeld(s.waiters, w);
      PutRegroup(s.buf, Held(s.waiters[..i]), [step.m], b);
    }
  }

  lemma {:induction false} PutRegroup<T>(buf: seq<T>, front: seq<T>, m: seq<T>, back: seq<T>)
    ensures [] + (buf + (front + m + back)) == (buf + front) + m + back
  {
  }

  lemma {:induction false} GetStream<Msg>(s: State<Msg>, step: Step<Msg>)
    requires Inv(s) && step.Get?
    ensures var e := Next(s, step); e.delivered + Stream(e.state) == Stream(s)
  {
    hide Held, Enqueue;
    if s.buf != [] {
      if s.waiters != [] {
        HeldConcat(s.waiters[..1], s.waiters[1..]);
        assert s.waiters == s.waiters[..1] + s.waiters[1..];
      } else {
        HeldNone(s.waiters);
      }
      assert s.buf == [s.buf[0]] + s.buf[1..];
    } else if !step.noWait {
      EnqueueNothing(s.waiters, Waiter(step.t, step.prio, Getter));
    }
  }

  lemma {:induction false} HeldNone<Msg>(q: seq<Waiter<Want<Msg>>>)
    requires q == []
    ensures Held(q) == [] && Held(q[..0]) == []
  {
  }

  /** The call neither loses, invents nor reorders a message. */
  ghost predicate InOrder<Msg>(s: State<Msg>, step: Step<Msg>) {
    var e := Next(s, step); e.delivered + Stream(e.state) == Stream(s) + e.accepted
  }

  /** Exactly when a put keeps messages first-in first-out: it is refused, or all messages that wait
      with a lower priority are equal to its own. */
  lemma {:induction false} OvertakesExactly<Msg>(s: State<Msg>, step: Step<Msg>)
    requires Inv(s) && step.Put?
    ensures InOrder(s, step) <==> step.noWait || AllAre(Behind(s, step), step.m)
  {
    hide Held, Enqueue, Slot, Stream, Ahead, Behind, Inv, AllAre;
    AheadBehind(s, step);
    PutStream(s, step);
    if |s.buf| < s.cap { NoneBehind(Behind(s, step), step.m); }
    Commutes(step.m, Behind(s, step));
    var a, b := Ahead(s, step), Behind(s, step);
    if Next(s, step).accepted != [] {
      assert Next(s, step).accepted == [step.m];
      assert a + [step.m] + b == a + ([step.m] + b) && (a + b) + [step.m] == a + (b + [step.m]);
      Cancel(a, [step.m] + b, b + [step.m]);
    } else {
      assert a + [] + b == (a + b) + [];
    }
  }

  lemma {:induction false} NoneBehind<T>(b: seq<T>, m: T)
    requires b == []
    ensures AllAre(b, m)
  {
  }

  lemma {:induction false} Cancel<T>(a: seq<T>, x: seq<T>, y: seq<T>)
    ensures a + x == a + y <==> x == y
  {
    assert (a + x)[|a|..] == x && (a + y)[|a|..] == y;
  }

  ghost predicate AllAre<T>(b: seq<T>, m: T) {
    forall i | 0 <= i < |b| :: b[i] == m
  }

  lemma {:induction false} Commutes<T>(m: T, b: seq<T>)
    ensures [m] + b == b + [m] <==> AllAre(b, m)
    decreases b
  {
    if b != [] {
      Commutes(m, b[1..]);
      assert ([m] + b)[0] == m && (b + [m])[0] == b[0];
      assert b == [b[0]] + b[1..];
      assert AllAre(b, m) <==> b[0] == m && AllAre(b[1..], m);
      if b[0] == m {
        assert [m] + b == [m] + ([m] + b[1..]) && b + [m] == [m] + (b[1..] + [m]);
        Cancel([m], [m] + b[1..], b[1..] + [m]);
      }
    }
  }

  /** A putter of priority 0 gets in front of one of priority 5. */
  lemma {:induction false} OvertakeExample<Msg>(a: Msg, b: Msg, c: Msg)
    ensures
      var s := State(1, [a], [Waiter(1, 5, Putter(b))]);
      Inv(s) && Stream(s) == [a, b] && Stream(Next(s, Put(2, 0, c, false)).state) == [a, c, b]
  {
    var w, v := Waiter(1, 5, Putter(b)), Waiter(2, 0, Putter(c));
    HeldOne([w]);
    assert Enqueue([w], v) == [v, w] && [v, w][1..] == [w];
  }

  // ---------------------------------------------------------------- whole runs

  function Final<Msg>(s: State<Msg>, steps: seq<Step<Msg>>): State<Msg>
    decreases steps
  {
    if steps == [] then s else Final(Next(s, steps[0]).state, steps[1..])
  }

  function DeliveredAll<Msg>(s: State<Msg>, steps: seq<Step<Msg>>): seq<Msg>
    decreases steps
  {
    if steps == [] then [] else Next(s, steps[0]).delivered + DeliveredAll(Next(s, steps[0]).state, steps[1..])
  }

  function AcceptedAll<Msg>(s: State<Msg>, steps: seq<Step<Msg>>): seq<Msg>
    decreases steps
  {
    if steps == [] then [] else Next(s, steps[0]).accepted + AcceptedAll(Next(s, steps[0]).state, steps[1..])
  }

  function DroppedAll<Msg>(s: State<Msg>, steps: seq<Step<Msg>>): seq<Msg>
    decreases steps
  {
    if steps == [] then [] else Next(s, steps[0]).dropped + DroppedAll(Next(s, steps[0]).state, steps[1..])
  }

  /** All putters have one priority, and none gives up or is purged. */
  ghost predicate OneClass<Msg>(s: State<Msg>, steps: seq<Step<Msg>>, prio: int) {
    && (forall i | 0 <= i < |s.waiters| && s.waiters[i].want.Putter? :: s.waiters[i].prio == prio)
    && (forall i | 0 <= i < |steps| :: (steps[i].Put? && steps[i].prio == prio) || steps[i].Get?)
  }

  lemma {:induction false} NextOneClass<Msg>(s: State<Msg>, steps: seq<Step<Msg>>, prio: int)
    requires Inv(s) && OneClass(s, steps, prio) && steps != []
    ensures OneClass(Next(s, steps[0]).state, steps[1..], prio) && Behind(s, steps[0]) == []
  {
    hide Held, Enqueue, Slot;
    var q, step := s.waiters, steps[0];
    if step.Put? {
      EnqueueAt(q, Waiter(step.t, prio, Putter(step.m)));
      if |s.buf| < s.cap { PutStream(s, step); } else { OnePriority(s, step, prio); }
    } else {
      EnqueueAt(q, Waiter(step.t, step.prio, Getter));
    }
  }

  lemma {:induction false} OnePriority<Msg>(s: State<Msg>, step: Step<Msg>, prio: int)
    requires step.Put? && step.prio == prio && Inv(s)
    requires forall i | 0 <= i < |s.waiters| && s.waiters[i].want.Putter? :: s.waiters[i].prio == prio
    ensures Behind(s, step) == []
  {
    hide Held, Enqueue, Slot;
    var i := Slot(s.waiters, prio);
    EnqueueAt(s.waiters, Waiter(step.t, prio, Putter(step.m)));
    if AllGetters(s.waiters) {
      GettersHoldNothing(s.waiters[i..]);
    } else {
      assert i == |s.waiters|;
      GettersHoldNothing(s.waiters[i..]);
    }
  }

  /** In every run with putters of one priority the queue is first-in first-out: the messages delivered
      and then those still in the stream are the messages that went in, in order. */
  lemma {:induction false} RunConserves<Msg>(s: State<Msg>, steps: seq<Step<Msg>>, prio: int)
    requires Inv(s) && OneClass(s, steps, prio)
    ensures DeliveredAll(s, steps) + Stream(Final(s, steps)) == Stream(s) + AcceptedAll(s, steps)
    decreases steps
  {
    if steps != [] {
      hide Stream, Inv, Next, Ahead, Behind;
      var e, rest := Next(s, steps[0]), steps[1..];
      NextInv(s, steps[0]);
      NextOneClass(s, steps, prio);
      StepStream(s, steps[0]);
      AheadBehind(s, steps[0]);
      assert e.delivered + Stream(e.state) == Stream(s) + e.accepted;
      RunConserves(e.state, rest, prio);
      Regroup(e.delivered, DeliveredAll(e.state, rest), Stream(Final(e.state, rest)),
              Stream(e.state), AcceptedAll(e.state, rest), Stream(s), e.accepted);
    }
  }

  lemma {:induction false} Regroup<T>(d: seq<T>, ds: seq<T>, last: seq<T>, mid: seq<T>, later: seq<T>, first: seq<T>, a: seq<T>)
    requires ds + last == mid + later && d + mid == first + a
    ensures (d + ds) + last == first + (a + later)
  {
    assert (d + ds) + last == d + (ds + last);
    assert d + (mid + later) == (d + mid) + later;
  }

  lemma {:induction false} StepCounts<Msg>(s: State<Msg>, step: Step<Msg>)
    requires Inv(s)
    ensures var e := Next(s, step);
      multiset(e.delivered) + multiset(Stream(e.state)) + multiset(e.dropped) == multiset(Stream(s)) + multiset(e.accepted)
  {
    match step
    case Purge =>
    case TimeOut(t) =>
      hide Held, Only, Without;
      OnlyOrWithout(s.waiters, t);
    case _ =>
      hide Stream, Ahead, Behind, Inv, Held, Enqueue;
      var e := Next(s, step);
      StepStream(s, step);
      AheadBehind(s, step);
      assert multiset(e.delivered + Stream(e.state)) == multiset(Ahead(s, step) + e.accepted + Behind(s, step));
  }

  lemma {:induction false} OnlyOrWithout<Msg>(q: seq<Waiter<Want<Msg>>>, t: Tid)
    ensures multiset(Held(Only(q, t))) + multiset(Held(Without(q, t))) == multiset(Held(q))
    decreases q
  {
    if q != [] {
      OnlyOrWithout(q[1..], t);
      if q[0].tid == t {
        assert Only(q, t)[1..] == Only(q[1..], t);
      } else {
        assert Without(q, t)[1..] == Without(q[1..], t);
      }
    }
  }

  /** In every run each message that went in was delivered, or is in the stream, or was dropped by a
      purge or with its putter's timeout: none is lost, none twice. */
  lemma {:induction false} RunCounts<Msg>(s: State<Msg>, steps: seq<Step<Msg>>)
    requires Inv(s)
    ensures multiset(DeliveredAll(s, steps)) + multiset(Stream(Final(s, steps))) + multiset(DroppedAll(s, steps)) ==
      multiset(Stream(s)) + multiset(AcceptedAll(s, steps))
    decreases steps
  {
    if steps != [] {
      hide Stream, Inv, Next;
      var e, rest := Next(s, steps[0]), steps[1..];
      NextInv(s, steps[0]);
      StepCounts(s, steps[0]);
      RunCounts(e.state, rest);
      AddUp(multiset(e.delivered), multiset(Stream(e.state)), multiset(e.dropped), multiset(Stream(s)), multiset(e.accepted),
            multiset(DeliveredAll(e.state, rest)), multiset(Stream(Final(e.state, rest))), multiset(DroppedAll(e.state, rest)),
            multiset(AcceptedAll(e.state, rest)));
    }
  }

  // ---------------------------------------------------------------- the queue

  class MessageQueue<Msg> {
    const buffer: array<Msg>
    var readSlot: nat
    var writeSlot: nat
    var usedMsgs: nat
    var waiters: seq<Waiter<Want<Msg>>>

    ghost predicate Shape()
      reads this
    {
      && readSlot < buffer.Length && usedMsgs <= buffer.Length
      && writeSlot == At(readSlot, usedMsgs, buffer.Length)
    }

    ghost function Contents(): (r: seq<Msg>)
      requires Shape()
      reads this, buffer
      ensures |r| == usedMsgs
    {
      Ring(buffer[..], readSlot, usedMsgs)
    }

    /** What the queue is as a value. */
    ghost function View(): State<Msg>
      requires Shape()
      reads this, buffer
    {
      State(buffer.Length, Contents(), waiters)
    }

    ghost predicate Valid()
      reads this, buffer
    {
      Shape() && Inv(View())
    }

    /** k_msgq_init() */
    constructor (buffer: array<Msg>)
      requires buffer.Length > 0
      ensures Valid() && Contents() == [] && waiters == [] && this.buffer == buffer
    {
      this.buffer := buffer;
      readSlot, writeSlot, usedMsgs, waiters := 0, 0, 0, [];
    }

    /** Writes a message at the write pointer, which wraps at the end of the buffer. */
    method Store(m: Msg)
      requires Shape() && usedMsgs < buffer.Length
      modifies this`writeSlot, this`usedMsgs, buffer
      ensures Shape() && Contents() == old(Contents()) + [m] && usedMsgs == old(usedMsgs) + 1
    {
      RingPut(buffer[..], readSlot, usedMsgs, m);
      buffer[writeSlot] := m;
      assert buffer[..] == old(buffer[..])[old(writeSlot) := m];
      writeSlot := writeSlot + 1;
      if writeSlot == buffer.Length { writeSlot := 0; }
      usedMsgs := usedMsgs + 1;
    }

    /** Takes the message at the read pointer. */
    method Fetch() returns (m: Msg)
      requires Shape() && usedMsgs > 0
      modifies this`readSlot, this`usedMsgs
      ensures Shape() && old(Contents()) == [m] + Contents() && usedMsgs == old(usedMsgs) - 1
    {
      RingGet(buffer[..], readSlot, usedMsgs);
      m := buffer[readSlot];
      readSlot := readSlot + 1;
      if readSlot == buffer.Length { readSlot := 0; }
      usedMsgs := usedMsgs - 1;
    }

    /** k_msgq_put() up to the wait: a waiting getter is handed the message; otherwise it joins the end
        of the stream, or its thread waits with it in queue order. */
    method Put(t: Tid, prio: int, m: Msg, noWait: bool) returns (r: Outcome, handed: Option<(Tid, Msg)>)
      requires Valid()
      modifies this`writeSlot, this`usedMsgs, this`waiters, buffer
      ensures Valid()
      ensures var e := Next(old(View()), Step.Put(t, prio, m, noWait)); View() == e.state && r == e.outcome
      ensures r == if old(usedMsgs) < buffer.Length then Done else if noWait then Refused else Blocked
      ensures handed == if r == Done && old(waiters) != [] then Some((old(waiters)[0].tid, m)) else None
      ensures handed.Some? ==> Stream(View()) == old(Stream(View())) == []
      ensures r == Done && handed == None ==> Stream(View()) == old(Stream(View())) + [m] && waiters == []
      ensures r == Refused ==> View() == old(View())
    {
      hide Enqueue, Ring, Held, Inv;
      NextInv(View(), Step.Put(t, prio, m, noWait));
      PutFacts(View());
      handed := None;
      if usedMsgs < buffer.Length {
        if waiters != [] {
          handed := Some((waiters[0].tid, m));
          waiters := waiters[1..];
        } else {
          Store(m);
        }
        r := Done;
      } else if noWait {
        r := Refused;
      } else {
        waiters := Enqueue(waiters, Waiter(t, prio, Putter(m)));
        r := Blocked;
      }
    }

    /** k_msgq_get() up to the wait: the head of the stream is taken; if a putter waits, its message
        takes the freed slot, which leaves the stream as it is. */
    method Get(t: Tid, prio: int, noWait: bool) returns (r: Outcome, m: Option<Msg>, admitted: Option<Tid>)
      requires Valid()
      modifies this`readSlot, this`writeSlot, this`usedMsgs, this`waiters, buffer
      ensures Valid()
      ensures var e := Next(old(View()), Step.Get(t, prio, noWait));
        View() == e.state && r == e.outcome && e.delivered == if m.Some? then [m.value] else []
      ensures r == if old(usedMsgs) > 0 then Done else if noWait then Refused else Blocked
      ensures r == Done <==> m.Some?
      ensures m.Some? ==> old(Stream(View())) == [m.value] + Stream(View())
      ensures admitted == if r == Done && old(waiters) != [] then Some(old(waiters)[0].tid) else None
      ensures r != Done ==> Stream(View()) == old(Stream(View())) == []
    {
      hide Enqueue, Ring, Held, Inv;
      NextInv(View(), Step.Get(t, prio, noWait));
      GetStream(View(), Step.Get(t, prio, noWait));
      GetFacts(View());
      m, admitted := None, None;
      if usedMsgs > 0 {
        var head := Fetch();
        m := Some(head);
        if waiters != [] {
          var w := waiters[0];
          waiters := waiters[1..];
          HeldOne(old(waiters)[..1]);
          Store(w.want.msg);
          admitted := Some(w.tid);
        } else {
          HeldNone(old(waiters));
        }
        assert Contents() == old(Contents())[1..] + Held(old(waiters)[..if old(waiters) == [] then 0 else 1]);
        r := Done;
      } else if noWait {
        r := Refused;
      } else {
        waiters := Enqueue(waiters, Waiter(t, prio, Getter));
        r := Blocked;
      }
    }

    /** k_msgq_peek() */
    method Peek() returns (m: Option<Msg>)
      requires Valid()
      ensures m == if Contents() == [] then None else Some(Contents()[0])
    {
      if usedMsgs > 0 { m := Some(buffer[readSlot]); } else { m := None; }
    }

    /** k_msgq_peek_at(): the offset is taken from the start of the buffer if it passes its end. */
    method PeekAt(idx: nat) returns (m: Option<Msg>)
      requires Valid()
      ensures m == if idx < |Contents()| then Some(Contents()[idx]) else None
    {
      if usedMsgs > idx {
        var toEnd, offset, start := buffer.Length - readSlot, idx, readSlot;
        if toEnd <= offset {
          offset := offset - toEnd;
          start := 0;
        }
        m := Some(buffer[start + offset]);
      } else {
        m := None;
      }
    }

    /** k_msgq_purge(): everybody waiting is woken with an error and the buffer is empty. */
    method Purge() returns (woken: seq<Tid>)
      requires Valid()
      modifies this`readSlot, this`usedMsgs, this`waiters
      ensures Valid() && View() == Next(old(View()), Step.Purge).state
      ensures |woken| == |old(waiters)| && forall i | 0 <= i < |woken| :: woken[i] == old(waiters)[i].tid
    {
      woken := [];
      while waiters != []
        invariant |woken| <= |old(waiters)| && waiters == old(waiters)[|woken|..]
        invariant forall i | 0 <= i < |woken| :: woken[i] == old(waiters)[i].tid
        invariant readSlot == old(readSlot) && usedMsgs == old(usedMsgs)
        decreases |waiters|
      {
        woken := woken + [waiters[0].tid];
        waiters := waiters[1..];
      }
      usedMsgs := 0;
      readSlot := writeSlot;
    }

    /** A wait ends in a timeout. */
    method TimeOut(t: Tid)
      requires Valid()
      modifies this`waiters
      ensures Valid() && View() == Next(old(View()), Step.TimeOut(t)).state
    {
      NextInv(View(), Step.TimeOut(t));
      waiters := Without(waiters, t);
    }

    /** One call does what `Next` says: the state, the message taken in and the message handed out. */
    method Perform(step: Step<Msg>) returns (accepted: seq<Msg>, delivered: seq<Msg>)
      requires Valid()
      modifies this`readSlot, this`writeSlot, this`usedMsgs, this`waiters, buffer
      ensures Valid()
      ensures var e := Next(old(View()), step); View() == e.state && accepted == e.accepted && delivered == e.delivered
    {
      hide Stream, Contents, Held, Enqueue, Without, Inv;
      accepted, delivered := [], [];
      match step {
        case Put(t, prio, m, noWait) =>
          var r, handed := Put(t, prio, m, noWait);
          if r != Refused { accepted := [m]; }
          if handed.Some? { delivered := [handed.value.1]; }
        case Get(t, prio, noWait) =>
          var r, m, _ := Get(t, prio, noWait);
          if m.Some? { delivered := [m.value]; }
        case Purge => var _ := Purge();
        case TimeOut(t) => TimeOut(t);
      }
    }

    /** The same over any run; with putters of one priority it is first-in first-out. */
    method Run(steps: seq<Step<Msg>>) returns (accepted: seq<Msg>, delivered: seq<Msg>)
      requires Valid()
      modifies this`readSlot, this`writeSlot, this`usedMsgs, this`waiters, buffer
      ensures Valid()
      ensures View() == Final(old(View()), steps)
      ensures accepted == AcceptedAll(old(View()), steps) && delivered == DeliveredAll(old(View()), steps)
      ensures multiset(delivered) + multiset(Stream(View())) + multiset(DroppedAll(old(View()), steps)) ==
        multiset(old(Stream(View()))) + multiset(accepted)
      ensures forall prio | OneClass(old(View()), steps, prio) ::
        delivered + Stream(View()) == old(Stream(View())) + accepted
    {
      hide Stream, Next, Inv, OneClass, DroppedAll;
      accepted, delivered := [], [];
      ghost var start := View();
      assert steps[0..] == steps;
      for i := 0 to |steps|
        invariant Valid()
        invariant Final(start, steps) == Final(View(), steps[i..])
        invariant AcceptedAll(start, steps) == accepted + AcceptedAll(View(), steps[i..])
        invariant DeliveredAll(start, steps) == delivered + DeliveredAll(View(), steps[i..])
      {
        Unroll(View(), steps, i);
        var a, d := Perform(steps[i]);
        accepted, delivered := accepted + a, delivered + d;
      }
      assert steps[|steps|..] == [];
      RunLaws(start, steps);
    }
  }

  lemma {:induction false} Unroll<Msg>(s: State<Msg>, steps: seq<Step<Msg>>, i: nat)
    requires i < |steps|
    ensures var e := Next(s, steps[i]);
      && Final(s, steps[i..]) == Final(e.state, steps[i + 1..])
      && AcceptedAll(s, steps[i..]) == e.accepted + AcceptedAll(e.state, steps[i + 1..])
      && DeliveredAll(s, steps[i..]) == e.delivered + DeliveredAll(e.state, steps[i + 1..])
  {
    hide Next;
    assert steps[i..][0] == steps[i] && steps[i..][1..] == steps[i + 1..];
  }

  /** What every run promises. */
  lemma {:induction false} RunLaws<Msg>(s: State<Msg>, steps: seq<Step<Msg>>)
    requires Inv(s)
    ensures multiset(DeliveredAll(s, steps)) + multiset(Stream(Final(s, steps))) + multiset(DroppedAll(s, steps)) ==
      multiset(Stream(s)) + multiset(AcceptedAll(s, steps))
    ensures forall prio | OneClass(s, steps, prio) ::
      DeliveredAll(s, steps) + Stream(Final(s, steps)) == Stream(s) + AcceptedAll(s, steps)
  {
    hide Stream, Next, Inv, OneClass;
    RunCounts(s, steps);
    forall prio | OneClass(s, steps, prio)
      ensures DeliveredAll(s, steps) + Stream(Final(s, steps)) == Stream(s) + AcceptedAll(s, steps)
    {
      RunConserves(s, steps, prio);
    }
  }

  lemma {:induction false} AddUp<T>(
    d: multiset<T>, s: multiset<T>, x: multiset<T>, s0: multiset<T>, a: multiset<T>,
    d2: multiset<T>, s2: multiset<T>, x2: multiset<T>, a2: multiset<T>)
    requires d + s + x == s0 + a && d2 + s2 + x2 == s + a2
    ensures (d + d2) + s2 + (x + x2) == s0 + (a + a2)
  {
    assert (d + d2) + s2 + (x + x2) == d + x + (d2 + s2 + x2);
    assert d + x + (s + a2) == (d + s + x) + a2;
    assert s0 + a + a2 == s0 + (a + a2);
  }

  lemma {:induction false} PutFacts<Msg>(s: State<Msg>)
    requires Inv(s)
    ensures |s.buf| < s.cap ==> Held(s.waiters) == []
    ensures |s.buf| < s.cap && s.waiters != [] ==> s.buf == [] && Held(s.waiters[1..]) == []
  {
    if |s.buf| < s.cap {
      GettersHoldNothing(s.waiters);
      if s.waiters != [] { GettersHoldNothing(s.waiters[1..]); }
    }
  }

  lemma {:induction false} GetFacts<Msg>(s: State<Msg>)
    requires Inv(s)
    ensures |s.buf| > 0 && s.waiters != [] ==> s.waiters[0].want.Putter? && |s.buf| == s.cap
    ensures s.buf == [] && s.cap > 0 ==> Held(s.waiters) == []
  {
    if s.buf == [] && s.cap > 0 { GettersHoldNothing(s.waiters); }
  }

  lemma {:induction false} EnqueueNothing<Msg>(q: seq<Waiter<Want<Msg>>>, w: Waiter<Want<Msg>>)
    requires w.want.Getter?
    ensures Held(Enqueue(q, w)) == Held(q)
  {
    hide Enqueue, Slot;
    EnqueueAt(q, w);
    var i := Slot(q, w.prio);
    HeldConcat(q[..i], q[i..]);
    assert q == q[..i] + q[i..];
    HeldConcat(q[..i] + [w], q[i..]);
    HeldConcat(q[..i], [w]);
    assert [w][1..] == [];
    assert Held([w]) == [];
  }

  lemma {:induction false} WithoutNone<Msg>(q: seq<Waiter<Want<Msg>>>, t: Tid)
    ensures Without(q, t) != [] ==> q != []
  {
  }
}
