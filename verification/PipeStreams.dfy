/** Pipes (kernel/pipes.c) as byte streams.  The stream of a pipe is what its buffer holds
    followed by what the waiting writers still have to send, in queue order.  This module says
    what each call does to that stream; `Pipes` shows that the ring buffer and the descriptor
    lists of the code do exactly this. */
module PipeStreams {
  import opened WaitQueues

  type Byte = bv8

  const EIO := 5
  const EINVAL := 22

  /** What a blocked writer still has to send, out of how much, and the least it asked for. */
  datatype Offer = Offer(data: seq<Byte>, total: nat, min: nat)

  /** How much a blocked reader still wants, what it has got so far, and the least it asked for. */
  datatype Request = Request(left: nat, got: seq<Byte>, min: nat)

  type Writer = Waiter<Offer>
  type Reader = Waiter<Request>

  datatype State = State(cap: nat, buf: seq<Byte>, writers: seq<Writer>, readers: seq<Reader>)

  function Min(a: nat, b: nat): nat { if a < b then a else b }

  function Send(w: Writer, n: nat): Writer
    requires n <= |w.want.data|
  {
    w.(want := w.want.(data := w.want.data[n..]))
  }

  function Receive(r: Reader, bytes: seq<Byte>): Reader
    requires |bytes| <= r.want.left
  {
    r.(want := r.want.(left := r.want.left - |bytes|, got := r.want.got + bytes))
  }

  // ---------------------------------------------------------------- writers as a source

  function Flat(ws: seq<Writer>): seq<Byte> {
    if ws == [] then [] else ws[0].want.data + Flat(ws[1..])
  }

  function Stream(s: State): seq<Byte> { s.buf + Flat(s.writers) }

  /** The writers after their first n bytes have been taken, in queue order. */
  function Drain(ws: seq<Writer>, n: nat): (r: seq<Writer>)
    ensures |r| == |ws|
  {
    if ws == [] then []
    else if n < |ws[0].want.data| then [Send(ws[0], n)] + ws[1..]
    else [Send(ws[0], |ws[0].want.data|)] + Drain(ws[1..], n - |ws[0].want.data|)
  }

  lemma {:induction false} FlatConcat(x: seq<Writer>, y: seq<Writer>)
    ensures Flat(x + y) == Flat(x) + Flat(y)
    decreases x
  {
    if x == [] {
      assert x + y == y;
    } else {
      assert (x + y)[0] == x[0] && (x + y)[1..] == x[1..] + y;
      FlatConcat(x[1..], y);
    }
  }

  lemma {:induction false} FlatDrain(ws: seq<Writer>, n: nat)
    ensures Flat(Drain(ws, n)) == Flat(ws)[Min(n, |Flat(ws)|)..]
    decreases ws
  {
    if ws != [] {
      var d, rest := ws[0].want.data, Flat(ws[1..]);
      assert Flat(ws) == d + rest;
      if n < |d| {
        assert Drain(ws, n)[1..] == ws[1..];
        assert Flat(Drain(ws, n)) == d[n..] + rest;
      } else {
        FlatDrain(ws[1..], n - |d|);
        assert Drain(ws, n)[1..] == Drain(ws[1..], n - |d|);
        assert Flat(Drain(ws, n)) == [] + rest[Min(n - |d|, |rest|)..];
      }
      hide Flat, Drain;
      DropFrom(d, rest, n);
    }
  }

  lemma {:induction false} DropFrom(d: seq<Byte>, rest: seq<Byte>, n: nat)
    ensures n < |d| ==> (d + rest)[n..] == d[n..] + rest
    ensures n >= |d| ==> (d + rest)[Min(n, |d + rest|)..] == [] + rest[Min(n - |d|, |rest|)..]
  {
  }

  lemma {:induction false} DrainNone(ws: seq<Writer>)
    ensures Drain(ws, 0) == ws
    decreases ws
  {
    if ws != [] && |ws[0].want.data| == 0 { DrainNone(ws[1..]); }
  }

  /** Taking from the first k writers is taking from all of them, if those k have enough. */
  lemma {:induction false} DrainPrefix(ws: seq<Writer>, k: nat, n: nat)
    requires k <= |ws| && (k == |ws| || n <= |Flat(ws[..k])|)
    ensures Drain(ws[..k], n) + ws[k..] == Drain(ws, n)
    decreases k
  {
    if k == |ws| {
      assert ws[..k] == ws;
    } else if k == 0 {
      DrainNone(ws);
    } else {
      var d := ws[0].want.data;
      assert ws[..k][0] == ws[0] && ws[..k][1..] == ws[1..][..k - 1] && ws[k..] == ws[1..][k - 1..];
      if n >= |d| { DrainPrefix(ws[1..], k - 1, n - |d|); }
    }
  }

  /** pipe_waiter_list_populate(): how many writers are put on the list to find n bytes. */
  function Visited(ws: seq<Writer>, n: int): (k: nat)
    ensures k <= |ws|
  {
    if ws == [] then 0
    else if |ws[0].want.data| >= n then 1
    else 1 + Visited(ws[1..], n - |ws[0].want.data|)
  }

  lemma {:induction false} VisitedEnough(ws: seq<Writer>, n: int)
    ensures Visited(ws, n) == |ws| || n <= |Flat(ws[..Visited(ws, n)])|
    decreases ws
  {
    if ws != [] {
      var k := Visited(ws, n);
      assert ws[..k][0] == ws[0] && ws[..k][1..] == ws[1..][..k - 1];
      if |ws[0].want.data| < n { VisitedEnough(ws[1..], n - |ws[0].want.data|); }
    }
  }

  predicate HasData(w: Writer) { w.want.data != [] }

  /** The writers with bytes left; the others have been woken. */
  function Unfinished(ws: seq<Writer>): seq<Writer> {
    if ws == [] then []
    else if HasData(ws[0]) then [ws[0]] + Unfinished(ws[1..])
    else Unfinished(ws[1..])
  }

  function WokenWriters(ws: seq<Writer>): seq<Tid> {
    if ws == [] then []
    else if HasData(ws[0]) then WokenWriters(ws[1..])
    else [ws[0].tid] + WokenWriters(ws[1..])
  }

  lemma {:induction false} FlatUnfinished(ws: seq<Writer>)
    ensures Flat(Unfinished(ws)) == Flat(ws)
    decreases ws
  {
    if ws != [] {
      FlatUnfinished(ws[1..]);
      if HasData(ws[0]) { assert Unfinished(ws)[1..] == Unfinished(ws[1..]); }
    }
  }

  // ---------------------------------------------------------------- readers as a sink

  function Wants(rs: seq<Reader>): nat {
    if rs == [] then 0 else rs[0].want.left + Wants(rs[1..])
  }

  /** Bytes handed to readers in queue order. */
  function Feed(rs: seq<Reader>, bytes: seq<Byte>): (r: seq<Reader>)
    ensures |r| == |rs|
  {
    if rs == [] then []
    else
      var t := Min(rs[0].want.left, |bytes|);
      [Receive(rs[0], bytes[..t])] + Feed(rs[1..], bytes[t..])
  }

  function Hungry(rs: seq<Reader>): seq<Reader> {
    if rs == [] then []
    else if rs[0].want.left > 0 then [rs[0]] + Hungry(rs[1..])
    else Hungry(rs[1..])
  }

  function Sated(rs: seq<Reader>): seq<Reader> {
    if rs == [] then []
    else if rs[0].want.left > 0 then Sated(rs[1..])
    else [rs[0]] + Sated(rs[1..])
  }

  // ---------------------------------------------------------------- the operations

  /** pipe_get_internal(), the copying: n bytes leave the stream, writers found with nothing
      left to send are woken, and the buffer is filled up from the writers that remain. */
  function Taken(s: State, n: nat): (r: State) { Refilled(Collected(s, n)) }

  function Collected(s: State, n: nat): (r: State) {
    var fromBuf := Min(n, |s.buf|);
    var k := Visited(s.writers, n);
    var rest := Unfinished(Drain(s.writers[..k], n - fromBuf)) + s.writers[k..];
    s.(buf := s.buf[fromBuf..], writers := rest)
  }

  function Refilled(s: State): (r: State) {
    if |s.buf| < s.cap then
      var room := s.cap - |s.buf|;
      var bytes := Flat(s.writers);
      s.(buf := s.buf + bytes[..Min(room, |bytes|)], writers := Drain(s.writers, room))
    else s
  }

  function TakenBytes(s: State, n: nat): seq<Byte> { Stream(s)[..Min(n, |Stream(s)|)] }

  function WokenByGet(s: State, n: nat): seq<Tid> {
    WokenWriters(Drain(s.writers[..Visited(s.writers, n)], n - Min(n, |s.buf|)))
  }

  /** z_impl_k_pipe_put(), the copying: waiting readers first, then the buffer. */
  function Given(s: State, data: seq<Byte>): (r: State) {
    var rest := data[Min(Wants(s.readers), |data|)..];
    var room := if |s.buf| < s.cap then s.cap - |s.buf| else 0;
    s.(readers := Hungry(Feed(s.readers, data)), buf := s.buf + rest[..Min(room, |rest|)])
  }

  function GivenCount(s: State, data: seq<Byte>): (k: nat)
    ensures k <= |data|
  {
    var room := if |s.buf| < s.cap then s.cap - |s.buf| else 0;
    Min(|data|, Wants(s.readers) + room)
  }

  datatype Result =
    | Refused(code: int)                                   // nothing transferred
    | Returned(data: seq<Byte>, woken: seq<Tid>)           // the bytes read, or the bytes accepted
    | Pending(data: seq<Byte>, woken: seq<Tid>)            // transferred so far; the caller waits

  datatype Op =
    | Put(tid: Tid, prio: int, data: seq<Byte>, min: nat, noWait: bool)
    | Get(tid: Tid, prio: int, n: nat, min: nat, noWait: bool)
    | Expire(tid: Tid)                                     // the thread's timeout runs out

  datatype Outcome = Outcome(state: State, result: Result)

  function DoGet(s: State, op: Op): (o: Outcome)
    requires op.Get?
  {
    var bytes := TakenBytes(s, op.n);
    if op.min > op.n then Outcome(s, Refused(-EINVAL))
    else if |Stream(s)| < op.min && op.noWait then Outcome(s, Refused(-EIO))
    else if |bytes| == op.n || op.noWait || (|bytes| >= op.min && op.min > 0) then
      Outcome(Taken(s, op.n), Returned(bytes, WokenByGet(s, op.n)))
    else
      var t := Taken(s, op.n);
      var me := Waiter(op.tid, op.prio, Request(op.n - |bytes|, bytes, op.min));
      Outcome(t.(readers := Enqueue(t.readers, me)), Pending(bytes, WokenByGet(s, op.n)))
  }

  function Tids(rs: seq<Reader>): seq<Tid> { if rs == [] then [] else [rs[0].tid] + Tids(rs[1..]) }

  function DoPut(s: State, op: Op): (o: Outcome)
    requires op.Put?
  {
    var k := GivenCount(s, op.data);
    var room := if |s.buf| < s.cap then s.cap - |s.buf| else 0;
    var woken := Tids(Sated(Feed(s.readers, op.data)));
    if op.min > |op.data| then Outcome(s, Refused(-EINVAL))
    else if Wants(s.readers) + room < op.min && op.noWait then Outcome(s, Refused(-EIO))
    else if k == |op.data| || op.noWait || (k >= op.min && op.min > 0) then
      Outcome(Given(s, op.data), Returned(op.data[..k], woken))
    else
      var t := Given(s, op.data);
      var me := Waiter(op.tid, op.prio, Offer(op.data[k..], |op.data|, op.min));
      Outcome(t.(writers := Enqueue(t.writers, me)), Pending(op.data[..k], woken))
  }

  /** z_thread_timeout() takes the thread off the queue it waits in. */
  function Leave(s: State, tid: Tid): State {
    s.(writers := Without(s.writers, tid), readers := Without(s.readers, tid))
  }

  function Step(s: State, op: Op): (o: Outcome) {
    match op
    case Put(_, _, _, _, _) => DoPut(s, op)
    case Get(_, _, _, _, _) => DoGet(s, op)
    case Expire(tid) => Outcome(Leave(s, tid), Returned([], []))
  }

  // ---------------------------------------------------------------- when calls return and when they wait

  /** A get is decided by the length of the stream alone: refused if it asks for more than it takes, or
      may not wait and cannot get its minimum; waiting if it may, cannot be served in full, and
      has no minimum or cannot get it; otherwise returning at once.  What it gets, if it is not
      refused, is the head of the stream. */
  lemma {:induction false} GetResult(s: State, op: Op)
    requires op.Get?
    ensures
      var len, o := |Stream(s)|, DoGet(s, op);
      && (o.result == Refused(-22) <==> op.min > op.n)
      && (o.result == Refused(-5) <==> op.min <= op.n && op.noWait && len < op.min)
      && (o.result.Refused? ==> o.state == s && (o.result.code == -22 || o.result.code == -5))
      && (o.result.Pending? <==> op.min <= op.n && !op.noWait && len < op.n && (op.min == 0 || len < op.min))
      && (!o.result.Refused? ==> o.result.data == Stream(s)[..if op.n < len then op.n else len])
  {
    hide Flat, Taken, WokenByGet, Enqueue;
  }

  /** A put is decided in the same way by what the waiting readers want and the free room together. */
  lemma {:induction false} PutResult(s: State, op: Op)
    requires op.Put? && |s.buf| <= s.cap
    ensures
      var can, o := Wants(s.readers) + s.cap - |s.buf|, DoPut(s, op);
      && (o.result == Refused(-22) <==> op.min > |op.data|)
      && (o.result == Refused(-5) <==> op.min <= |op.data| && op.noWait && can < op.min)
      && (o.result.Refused? ==> o.state == s && (o.result.code == -22 || o.result.code == -5))
      && (o.result.Pending? <==> op.min <= |op.data| && !op.noWait && can < |op.data| && (op.min == 0 || can < op.min))
      && (!o.result.Refused? ==> o.result.data == op.data[..if can < |op.data| then can else |op.data|])
  {
    hide Wants, Feed, Sated, Tids, Given, Enqueue;
  }

  /** Whoever waits, waits for what is missing: a reader with what it got so far, a writer with the rest
      of its data. */
  lemma {:induction false} WaitsForRest(s: State, op: Op)
    requires !op.Expire? && Step(s, op).result.Pending?
    ensures op.Get? ==>
      exists r :: r in Step(s, op).state.readers && r.tid == op.tid && r.prio == op.prio
        && r.want.got == Step(s, op).result.data && r.want.left == op.n - |r.want.got| && r.want.min == op.min
    ensures op.Put? ==>
      exists w :: w in Step(s, op).state.writers && w.tid == op.tid && w.prio == op.prio
        && Step(s, op).result.data + w.want.data == op.data && w.want.total == |op.data| && w.want.min == op.min
  {
    hide Flat, Taken, Given, Wants, Feed, Enqueue, WokenByGet;
    match op
    case Get(_, _, _, _, _) =>
      var t, bytes := Taken(s, op.n), TakenBytes(s, op.n);
      EnqueueMembers(t.readers, Waiter(op.tid, op.prio, Request(op.n - |bytes|, bytes, op.min)));
    case Put(_, _, _, _, _) =>
      var t, k := Given(s, op.data), GivenCount(s, op.data);
      EnqueueMembers(t.writers, Waiter(op.tid, op.prio, Offer(op.data[k..], |op.data|, op.min)));
  }

  /** A timeout takes exactly the thread off, with what it had left to send. */
  lemma {:induction false} TimeoutLeaves(s: State, t: Tid)
    ensures var e := Step(s, Expire(t)).state;
      && e.buf == s.buf && e.cap == s.cap
      && (forall w :: w in e.writers <==> w in s.writers && w.tid != t)
      && (forall r :: r in e.readers <==> r in s.readers && r.tid != t)
  {
    WithoutMembers(s.writers, t);
    WithoutMembers(s.readers, t);
  }

  // ---------------------------------------------------------------- who is woken

  ghost predicate DistinctTids<T>(q: seq<Waiter<T>>) {
    forall i, j | 0 <= i < j < |q| :: q[i].tid != q[j].tid
  }

  /** The listing of writers stops at the first that completes what was asked for. */
  lemma {:induction false} VisitedLeast(ws: seq<Writer>, n: int)
    ensures var k := Visited(ws, n); k > 1 ==> |Flat(ws[..k - 1])| < n
    decreases ws
  {
    if ws != [] && |ws[0].want.data| < n {
      var rest, k := ws[1..], Visited(ws, n);
      VisitedLeast(rest, n - |ws[0].want.data|);
      if k > 1 {
        assert ws[..k - 1][0] == ws[0] && ws[..k - 1][1..] == rest[..k - 2];
        if k == 2 { assert Flat(rest[..0]) == []; }
      }
    }
  }

  /** A writer has nothing left exactly if the bytes taken cover it and all before it. */
  lemma {:induction false} DrainDone(ws: seq<Writer>, n: nat, i: nat)
    requires i < |ws|
    ensures Drain(ws, n)[i].want.data == [] <==> ws[i].want.data == [] || |Flat(ws[..i + 1])| <= n
    decreases ws
  {
    var d, rest := ws[0].want.data, ws[1..];
    assert ws[..i + 1][0] == ws[0] && ws[..i + 1][1..] == rest[..i];
    if i == 0 {
      assert Flat(rest[..0]) == [];
    } else {
      assert ws[i] == rest[i - 1];
      if n < |d| {
        assert Drain(ws, n)[i] == rest[i - 1];
      } else {
        DrainDone(rest, n - |d|, i - 1);
        assert Drain(ws, n)[i] == Drain(rest, n - |d|)[i - 1];
      }
    }
  }

  lemma {:induction false} WokenDone(ws: seq<Writer>)
    requires DistinctTids(ws)
    ensures forall i | 0 <= i < |ws| :: ws[i].tid in WokenWriters(ws) <==> ws[i].want.data == []
    ensures forall t | t in WokenWriters(ws) :: exists i :: 0 <= i < |ws| && ws[i].tid == t
    decreases ws
  {
    if ws != [] {
      var rest := ws[1..];
      assert forall i | 0 <= i < |rest| :: rest[i] == ws[i + 1];
      WokenDone(rest);
      forall i | 0 <= i < |ws| ensures ws[i].tid in WokenWriters(ws) <==> ws[i].want.data == [] {
        if i > 0 {
          assert ws[i] == rest[i - 1];
        } else {
          assert forall j | 0 <= j < |rest| :: rest[j].tid != ws[0].tid;
        }
      }
      forall t | t in WokenWriters(ws) ensures exists i :: 0 <= i < |ws| && ws[i].tid == t {
        if t in WokenWriters(rest) {
          var j :| 0 <= j < |rest| && rest[j].tid == t;
          assert ws[j + 1].tid == t;
        } else {
          assert ws[0].tid == t;
        }
      }
    }
  }

  /** A get wakes exactly the writers it has listed whose last byte it took, or who had none left. */
  lemma {:induction false} GetWakes(s: State, n: nat, i: nat)
    requires DistinctTids(s.writers) && i < |s.writers|
    ensures s.writers[i].tid in WokenByGet(s, n) <==>
      && i < Visited(s.writers, n)
      && (s.writers[i].want.data == [] || |Flat(s.writers[..i + 1])| <= n - Min(n, |s.buf|))
  {
    hide Flat, Visited, Drain, WokenWriters;
    var k, m := Visited(s.writers, n), n - Min(n, |s.buf|);
    var front := s.writers[..k];
    var d := Drain(front, m);
    DrainKeepsOrder(front, m);
    assert forall j | 0 <= j < k :: d[j].tid == s.writers[j].tid;
    WokenDone(d);
    if i < k {
      DrainDone(front, m, i);
      assert front[..i + 1] == s.writers[..i + 1];
    } else {
      forall j | 0 <= j < |d| ensures d[j].tid != s.writers[i].tid { assert d[j].tid == s.writers[j].tid; }
    }
  }

  /** It wakes them in the order of their queue. */
  lemma {:induction false} GetWakesInOrder(s: State, n: nat, i: nat, j: nat)
    requires DistinctTids(s.writers) && i < j < |s.writers|
    requires s.writers[i].tid in WokenByGet(s, n) && s.writers[j].tid in WokenByGet(s, n)
    ensures Precedes(WokenByGet(s, n), s.writers[i].tid, s.writers[j].tid)
  {
    hide Flat, Visited, Drain, WokenWriters, Precedes;
    GetWakes(s, n, i);
    GetWakes(s, n, j);
    var k, m := Visited(s.writers, n), n - Min(n, |s.buf|);
    var front := s.writers[..k];
    DrainKeepsOrder(front, m);
    DrainDone(front, m, i);
    DrainDone(front, m, j);
    assert front[..i + 1] == s.writers[..i + 1] && front[..j + 1] == s.writers[..j + 1];
    WokenInOrder(Drain(front, m), i, j);
  }

  lemma {:induction false} WokenInOrder(ws: seq<Writer>, i: nat, j: nat)
    requires i < j < |ws| && ws[i].want.data == [] && ws[j].want.data == []
    ensures Precedes(WokenWriters(ws), ws[i].tid, ws[j].tid)
    decreases ws
  {
    hide Precedes;
    var rest := ws[1..];
    assert ws[j] == rest[j - 1];
    WokenHas(rest, j - 1);
    if i > 0 {
      assert ws[i] == rest[i - 1];
      WokenInOrder(rest, i - 1, j - 1);
    }
    if ws[0].want.data == [] { PrecedesFirst(ws[0].tid, WokenWriters(rest), ws[i].tid, ws[j].tid, i == 0); }
  }

  lemma {:induction false} WokenHas(ws: seq<Writer>, i: nat)
    requires i < |ws| && ws[i].want.data == []
    ensures ws[i].tid in WokenWriters(ws)
    decreases ws
  {
    if i > 0 {
      assert ws[i] == ws[1..][i - 1];
      WokenHas(ws[1..], i - 1);
    }
  }

  /** Who is not woken goes on waiting, and nobody else. */
  lemma {:induction false} GetLeaves(s: State, n: nat, i: nat)
    requires DistinctTids(s.writers) && i < |s.writers|
    ensures s.writers[i].tid !in WokenByGet(s, n) <==> exists w :: w in Taken(s, n).writers && w.tid == s.writers[i].tid
  {
    hide Flat, Visited, Drain, WokenWriters, Unfinished;
    var k, m := Visited(s.writers, n), n - Min(n, |s.buf|);
    var d, t := Drain(s.writers[..k], m), s.writers[i].tid;
    DrainKeepsOrder(s.writers[..k], m);
    assert forall j | 0 <= j < k :: d[j].tid == s.writers[j].tid;
    WokenDone(d);
    var c := Collected(s, n);
    RefillKeepsTids(c, t);
    UnfinishedExact(d);
    if i < k {
      assert d[i] in d;
      if t !in WokenByGet(s, n) {
        assert d[i] in c.writers && d[i].tid == t;
      } else {
        forall w | w in c.writers ensures w.tid != t {
          if w in Unfinished(d) {
            var j :| 0 <= j < |d| && d[j] == w;
            assert j == i ==> w.want.data == [];
          } else {
            var j :| 0 <= j < |s.writers[k..]| && s.writers[k..][j] == w;
            assert s.writers[k + j] == w;
          }
        }
      }
    } else {
      assert s.writers[k..][i - k] == s.writers[i] && s.writers[i] in c.writers;
      GetWakes(s, n, i);
    }
  }

  lemma {:induction false} UnfinishedExact(ws: seq<Writer>)
    ensures forall w :: w in Unfinished(ws) <==> w in ws && w.want.data != []
    decreases ws
  {
    if ws != [] { UnfinishedExact(ws[1..]); }
  }

  lemma {:induction false} RefillKeepsTids(c: State, t: Tid)
    ensures (exists w :: w in Refilled(c).writers && w.tid == t) <==> exists w :: w in c.writers && w.tid == t
  {
    hide Flat, Drain;
    if |c.buf| < c.cap {
      var room := c.cap - |c.buf|;
      DrainKeepsOrder(c.writers, room);
      var e := Drain(c.writers, room);
      if w :| w in e && w.tid == t {
        var i :| 0 <= i < |e| && e[i] == w;
        assert c.writers[i] in c.writers;
      }
      if w :| w in c.writers && w.tid == t {
        var i :| 0 <= i < |c.writers| && c.writers[i] == w;
        assert e[i] in e;
      }
    }
  }

  /** A put wakes exactly the readers that its data covers together with all before them, and the others
      go on waiting. */
  lemma {:induction false} PutWakes(rs: seq<Reader>, data: seq<Byte>, i: nat)
    requires DistinctTids(rs) && (forall r | r in rs :: r.want.left > 0) && i < |rs|
    ensures rs[i].tid in Tids(Sated(Feed(rs, data))) <==> Wants(rs[..i + 1]) <= |data|
    ensures rs[i].tid !in Tids(Sated(Feed(rs, data))) <==> exists r :: r in Hungry(Feed(rs, data)) && r.tid == rs[i].tid
  {
    hide Feed, Wants, Sated, Hungry, Tids;
    var f := Feed(rs, data);
    forall j | 0 <= j < |rs| ensures f[j].tid == rs[j].tid { FeedEach(rs, data, j); }
    FedDone(rs, data, i);
    SatedExact(f);
    HungryExact(f);
    assert f[i] in f;
    if f[i].want.left > 0 { assert f[i] in Hungry(f); }
    forall r | r in f && r.tid == rs[i].tid ensures r == f[i] {
      var j :| 0 <= j < |f| && f[j] == r;
    }
  }

  /** It wakes them in the order of their queue, and the others keep theirs. */
  lemma {:induction false} PutWakesInOrder(rs: seq<Reader>, data: seq<Byte>, i: nat, j: nat)
    requires (forall r | r in rs :: r.want.left > 0) && i < j < |rs|
    ensures Wants(rs[..i + 1]) <= |data| && Wants(rs[..j + 1]) <= |data| ==>
      Precedes(Tids(Sated(Feed(rs, data))), rs[i].tid, rs[j].tid)
    ensures Wants(rs[..i + 1]) > |data| && Wants(rs[..j + 1]) > |data| ==>
      Precedes(Tids(Hungry(Feed(rs, data))), rs[i].tid, rs[j].tid)
  {
    hide Feed, Wants, Sated, Hungry, Tids, Precedes;
    var f := Feed(rs, data);
    FeedEach(rs, data, i);
    FeedEach(rs, data, j);
    FedDone(rs, data, i);
    FedDone(rs, data, j);
    if f[i].want.left == 0 <==> f[j].want.left == 0 { FedInOrder(f, i, j); }
  }

  lemma {:induction false} FedInOrder(rs: seq<Reader>, i: nat, j: nat)
    requires i < j < |rs| && (rs[i].want.left == 0 <==> rs[j].want.left == 0)
    ensures rs[i].want.left == 0 ==> Precedes(Tids(Sated(rs)), rs[i].tid, rs[j].tid)
    ensures rs[i].want.left > 0 ==> Precedes(Tids(Hungry(rs)), rs[i].tid, rs[j].tid)
    decreases rs
  {
    hide Precedes;
    var rest := rs[1..];
    assert rs[j] == rest[j - 1];
    SatedExact(rest);
    HungryHas(rest, j - 1);
    if i > 0 {
      assert rs[i] == rest[i - 1];
      FedInOrder(rest, i - 1, j - 1);
    }
    if rs[0].want.left == 0 {
      assert Sated(rs)[1..] == Sated(rest);
      if rs[i].want.left == 0 { PrecedesFirst(rs[0].tid, Tids(Sated(rest)), rs[i].tid, rs[j].tid, i == 0); }
    } else {
      assert Hungry(rs)[1..] == Hungry(rest);
      if rs[i].want.left > 0 { PrecedesFirst(rs[0].tid, Tids(Hungry(rest)), rs[i].tid, rs[j].tid, i == 0); }
    }
  }

  lemma {:induction false} HungryHas(rs: seq<Reader>, i: nat)
    requires i < |rs|
    ensures rs[i].want.left > 0 ==> rs[i].tid in Tids(Hungry(rs))
    decreases rs
  {
    if i > 0 {
      assert rs[i] == rs[1..][i - 1];
      HungryHas(rs[1..], i - 1);
    }
    if rs[0].want.left > 0 { assert Hungry(rs)[1..] == Hungry(rs[1..]); }
  }

  lemma {:induction false} FedDone(rs: seq<Reader>, data: seq<Byte>, i: nat)
    requires i < |rs| && forall r | r in rs :: r.want.left > 0
    ensures Feed(rs, data)[i].want.left == 0 <==> Wants(rs[..i + 1]) <= |data|
    decreases rs
  {
    var rest, t := rs[1..], Min(rs[0].want.left, |data|);
    assert rs[0] in rs;
    assert rs[..i + 1][0] == rs[0] && rs[..i + 1][1..] == rest[..i];
    if i == 0 {
      assert Wants(rest[..0]) == 0;
    } else {
      FedDone(rest, data[t..], i - 1);
      assert Feed(rs, data)[i] == Feed(rest, data[t..])[i - 1];
      PositiveWants(rest, i);
    }
  }

  lemma {:induction false} PositiveWants(rs: seq<Reader>, i: nat)
    requires 0 < i <= |rs| && forall r | r in rs :: r.want.left > 0
    ensures Wants(rs[..i]) > 0
  {
    assert rs[..i][0] == rs[0] && rs[0] in rs;
  }

  lemma {:induction false} SatedExact(rs: seq<Reader>)
    ensures forall t :: t in Tids(Sated(rs)) <==> exists i :: 0 <= i < |rs| && rs[i].tid == t && rs[i].want.left == 0
    decreases rs
  {
    if rs != [] {
      var rest := rs[1..];
      SatedExact(rest);
      assert rs[0].want.left == 0 ==> Sated(rs)[1..] == Sated(rest);
      forall t ensures t in Tids(Sated(rs)) <==> exists i :: 0 <= i < |rs| && rs[i].tid == t && rs[i].want.left == 0 {
        if t in Tids(Sated(rest)) {
          var j :| 0 <= j < |rest| && rest[j].tid == t && rest[j].want.left == 0;
          assert rs[j + 1] == rest[j];
        }
        if i :| 0 <= i < |rs| && rs[i].tid == t && rs[i].want.left == 0 {
          if i > 0 { assert rest[i - 1] == rs[i]; }
        }
      }
    }
  }

  lemma {:induction false} HungryExact(rs: seq<Reader>)
    ensures forall r :: r in Hungry(rs) <==> r in rs && r.want.left > 0
    decreases rs
  {
    if rs != [] { HungryExact(rs[1..]); }
  }

  // ---------------------------------------------------------------- what always holds

  /** Waiting readers mean an empty stream; a writer with bytes left means a full buffer. */
  ghost predicate Inv(s: State) {
    && |s.buf| <= s.cap
    && (forall r | r in s.readers :: r.want.left > 0)
    && (s.readers != [] ==> Stream(s) == [])
    && (Flat(s.writers) != [] ==> |s.buf| == s.cap)
    && Sorted(s.writers) && Sorted(s.readers)
  }

  /** A get delivers exactly the head of the stream and leaves the rest in order; afterwards a
      writer with bytes left means a full buffer. */
  lemma {:induction false} TakenStream(s: State, n: nat)
    requires |s.buf| <= s.cap
    ensures Stream(Taken(s, n)) == Stream(s)[Min(n, |Stream(s)|)..]
    ensures var t := Taken(s, n); |t.buf| <= t.cap && (Flat(t.writers) != [] ==> |t.buf| == t.cap)
  {
    CollectedStream(s, n);
    RefilledStream(Collected(s, n));
  }

  lemma {:induction false} CollectedStream(s: State, n: nat)
    ensures Stream(Collected(s, n)) == Stream(s)[Min(n, |Stream(s)|)..]
  {
    hide Flat, Drain, Unfinished, Visited;
    var m := n - Min(n, |s.buf|);
    var k := Visited(s.writers, n);
    var d := Drain(s.writers[..k], m);
    VisitedEnough(s.writers, n);
    DrainPrefix(s.writers, k, m);
    FlatConcat(d, s.writers[k..]);
    FlatUnfinished(d);
    FlatConcat(Unfinished(d), s.writers[k..]);
    FlatDrain(s.writers, m);
    DropSplit(s.buf, Flat(s.writers), n);
  }

  lemma {:induction false} RefilledStream(s: State)
    requires |s.buf| <= s.cap
    ensures Stream(Refilled(s)) == Stream(s)
    ensures var t := Refilled(s); |t.buf| <= t.cap && (Flat(t.writers) != [] ==> |t.buf| == t.cap)
  {
    hide Flat, Drain;
    if |s.buf| < s.cap { FlatDrain(s.writers, s.cap - |s.buf|); }
  }

  lemma {:induction false} DropSplit(x: seq<Byte>, y: seq<Byte>, n: nat)
    ensures (x + y)[Min(n, |x + y|)..] == x[Min(n, |x|)..] + y[Min(n - Min(n, |x|), |y|)..]
  {
  }

  lemma {:induction false} DrainKeepsOrder(ws: seq<Writer>, n: nat)
    ensures forall i | 0 <= i < |ws| :: Drain(ws, n)[i].prio == ws[i].prio && Drain(ws, n)[i].tid == ws[i].tid
    decreases ws
  {
    if ws != [] && n >= |ws[0].want.data| {
      DrainKeepsOrder(ws[1..], n - |ws[0].want.data|);
      forall i | 1 <= i < |ws| ensures Drain(ws, n)[i].prio == ws[i].prio && Drain(ws, n)[i].tid == ws[i].tid {
        assert Drain(ws, n)[i] == Drain(ws[1..], n - |ws[0].want.data|)[i - 1] && ws[i] == ws[1..][i - 1];
      }
    }
  }

  lemma {:induction false} UnfinishedSorted(ws: seq<Writer>)
    requires Sorted(ws)
    ensures Sorted(Unfinished(ws)) && forall w | w in Unfinished(ws) :: w in ws
    decreases ws
  {
    if ws != [] {
      assert Sorted(ws[1..]);
      UnfinishedSorted(ws[1..]);
      forall w | w in Unfinished(ws[1..]) ensures ws[0].prio <= w.prio {
        var k :| 0 <= k < |ws[1..]| && ws[1..][k] == w;
        assert ws[k + 1] == w;
      }
    }
  }

  lemma {:induction false} ConcatSorted(x: seq<Writer>, y: seq<Writer>)
    requires Sorted(x) && Sorted(y) && forall v, w | v in x && w in y :: v.prio <= w.prio
    ensures Sorted(x + y)
  {
  }

  lemma {:induction false} CollectedSorted(s: State, n: nat)
    requires Sorted(s.writers)
    ensures Sorted(Collected(s, n).writers)
  {
    hide Drain, Unfinished, Visited, Flat;
    var k := Visited(s.writers, n);
    var front, back := s.writers[..k], s.writers[k..];
    var d := Drain(front, n - Min(n, |s.buf|));
    DrainKeepsOrder(front, n - Min(n, |s.buf|));
    assert forall i | 0 <= i < k :: d[i].prio == s.writers[i].prio;
    assert Sorted(back);
    assert Sorted(d);
    UnfinishedSorted(d);
    forall v, w | v in Unfinished(d) && w in back ensures v.prio <= w.prio {
      var i :| 0 <= i < |d| && d[i] == v;
      var j :| 0 <= j < |back| && back[j] == w;
      assert s.writers[i].prio == v.prio && s.writers[k + j] == w;
    }
    ConcatSorted(Unfinished(d), back);
  }

  lemma {:induction false} TakenSorted(s: State, n: nat)
    requires Sorted(s.writers)
    ensures Sorted(Taken(s, n).writers)
  {
    hide Drain, Flat, Collected;
    CollectedSorted(s, n);
    var c := Collected(s, n);
    if |c.buf| < c.cap { DrainKeepsOrder(c.writers, c.cap - |c.buf|); }
  }

  lemma {:induction false} FeedAll(rs: seq<Reader>, bytes: seq<Byte>)
    requires forall r | r in rs :: r.want.left > 0
    ensures Hungry(Feed(rs, bytes)) == [] <==> Wants(rs) <= |bytes|
    ensures forall r | r in Hungry(Feed(rs, bytes)) :: r.want.left > 0
    ensures Sorted(rs) ==> Sorted(Hungry(Feed(rs, bytes)))
  {
    hide Hungry, Feed, Wants, Sorted;
    FeedEnough(rs, bytes);
    HungryWant(Feed(rs, bytes));
    if Sorted(rs) {
      FeedSorted(rs, bytes);
      HungrySorted(Feed(rs, bytes));
    }
  }

  lemma {:induction false} FeedEnough(rs: seq<Reader>, bytes: seq<Byte>)
    requires forall r | r in rs :: r.want.left > 0
    ensures Hungry(Feed(rs, bytes)) == [] <==> Wants(rs) <= |bytes|
    decreases rs
  {
    if rs != [] {
      var t := Min(rs[0].want.left, |bytes|);
      FeedEnough(rs[1..], bytes[t..]);
      assert Feed(rs, bytes)[1..] == Feed(rs[1..], bytes[t..]);
      assert rs[0] in rs;
    }
  }

  lemma {:induction false} HungryWant(rs: seq<Reader>)
    ensures forall r | r in Hungry(rs) :: r in rs && r.want.left > 0
    decreases rs
  {
    if rs != [] { HungryWant(rs[1..]); }
  }

  lemma {:induction false} FeedSorted(rs: seq<Reader>, bytes: seq<Byte>)
    ensures forall i | 0 <= i < |rs| :: Feed(rs, bytes)[i].prio == rs[i].prio
    ensures Sorted(rs) ==> Sorted(Feed(rs, bytes))
    decreases rs
  {
    if rs != [] {
      var t := Min(rs[0].want.left, |bytes|);
      FeedSorted(rs[1..], bytes[t..]);
      forall i | 0 <= i < |rs| ensures Feed(rs, bytes)[i].prio == rs[i].prio {
        assert i > 0 ==> Feed(rs, bytes)[i] == Feed(rs[1..], bytes[t..])[i - 1] && rs[i] == rs[1..][i - 1];
      }
    }
  }

  lemma {:induction false} HungrySorted(rs: seq<Reader>)
    requires Sorted(rs)
    ensures Sorted(Hungry(rs))
    decreases rs
  {
    if rs != [] {
      assert Sorted(rs[1..]);
      HungrySorted(rs[1..]);
      HungryWant(rs[1..]);
      forall r | r in Hungry(rs[1..]) ensures rs[0].prio <= r.prio {
        var j :| 0 <= j < |rs[1..]| && rs[1..][j] == r;
        assert rs[j + 1] == r;
      }
    }
  }

  // ---------------------------------------------------------------- every operation keeps it

  lemma {:induction false} WithoutFlat(ws: seq<Writer>, tid: Tid)
    ensures Flat(Without(ws, tid)) != [] ==> Flat(ws) != []
    decreases ws
  {
    if ws != [] {
      WithoutFlat(ws[1..], tid);
      if ws[0].tid != tid { assert Without(ws, tid)[1..] == Without(ws[1..], tid); }
    }
  }

  lemma {:induction false} EnqueueFlat(ws: seq<Writer>, w: Writer)
    ensures var i := Slot(ws, w.prio); Flat(Enqueue(ws, w)) == Flat(ws[..i]) + w.want.data + Flat(ws[i..])
  {
    hide Enqueue, Slot, Flat;
    EnqueueAt(ws, w);
    var i := Slot(ws, w.prio);
    FlatConcat(ws[..i] + [w], ws[i..]);
    FlatConcat(ws[..i], [w]);
    FlatOne(w);
  }

  lemma {:induction false} FlatOne(w: Writer)
    ensures Flat([w]) == w.want.data
  {
    assert [w][1..] == [];
  }

  lemma {:induction false} GetKeeps(s: State, op: Op)
    requires Inv(s) && op.Get?
    ensures Inv(DoGet(s, op).state)
  {
    hide Flat, Drain, Unfinished, Visited, Taken, WokenByGet, Enqueue, Sorted;
    TakenStream(s, op.n);
    TakenSorted(s, op.n);
    var t := Taken(s, op.n);
    TakenReaders(s, op.n);
    var bytes := TakenBytes(s, op.n);
    var me := Waiter(op.tid, op.prio, Request(if |bytes| <= op.n then op.n - |bytes| else 0, bytes, op.min));
    EnqueueMembers(t.readers, me);
    EnqueueSorted(t.readers, me);
  }

  lemma {:induction false} TakenReaders(s: State, n: nat)
    ensures Taken(s, n).readers == s.readers && Taken(s, n).cap == s.cap
  {
    hide Flat, Drain, Unfinished, Visited;
  }

  lemma {:induction false} GivenKeeps(s: State, data: seq<Byte>)
    requires Inv(s)
    ensures Inv(Given(s, data)) && Given(s, data).cap == s.cap && Given(s, data).writers == s.writers
    ensures GivenCount(s, data) < |data| ==> Given(s, data).readers == [] && |Given(s, data).buf| == s.cap
  {
    hide Flat, Feed, Hungry;
    FeedAll(s.readers, data);
  }

  lemma {:induction false} PutKeeps(s: State, op: Op)
    requires Inv(s) && op.Put?
    ensures Inv(DoPut(s, op).state)
  {
    hide Flat, Feed, Hungry, Sated, Tids, Given;
    GivenKeeps(s, op.data);
    var t := Given(s, op.data);
    var k := GivenCount(s, op.data);
    assert k <= |op.data|;
    var me := Waiter(op.tid, op.prio, Offer(op.data[k..], |op.data|, op.min));
    EnqueueSorted(t.writers, me);
  }

  /** Every call, and every waiter that gives up, keeps the invariant. */
  lemma {:induction false} StepKeeps(s: State, op: Op)
    requires Inv(s)
    ensures Inv(Step(s, op).state)
  {
    match op
    case Put(_, _, _, _, _) => PutKeeps(s, op);
    case Get(_, _, _, _, _) => GetKeeps(s, op);
    case Expire(tid) =>
      hide Flat;
      WithoutFlat(s.writers, tid);
      WithoutSorted(s.writers, tid);
      WithoutSorted(s.readers, tid);
      ExpireEmpties(s, tid);
  }

  lemma {:induction false} ExpireEmpties(s: State, tid: Tid)
    requires Inv(s)
    ensures Without(s.readers, tid) != [] ==> s.readers != []
    ensures s.readers != [] ==> Flat(Without(s.writers, tid)) == []
  {
    hide Flat;
    WithoutFlat(s.writers, tid);
  }

  function Final(s: State, ops: seq<Op>): State
    decreases ops
  {
    if ops == [] then s else Final(Step(s, ops[0]).state, ops[1..])
  }

  lemma {:induction false} AlwaysInv(s: State, ops: seq<Op>)
    requires Inv(s)
    ensures Inv(Final(s, ops))
    decreases ops
  {
    if ops != [] {
      StepKeeps(s, ops[0]);
      AlwaysInv(Step(s, ops[0]).state, ops[1..]);
    }
  }

  // ---------------------------------------------------------------- nothing lost, nothing reordered

  /** The bytes an operation hands to readers, the caller or blocked ones, in order. */
  function Delivered(s: State, op: Op): seq<Byte> {
    match op
    case Get(_, _, _, _, _) => if DoGet(s, op).result.Refused? then [] else DoGet(s, op).result.data
    case Put(_, _, data, _, _) =>
      if DoPut(s, op).result.Refused? then [] else data[..Min(Wants(s.readers), |data|)]
    case Expire(_) => []
  }

  /** The bytes an operation adds to the stream: what a put got rid of, or all of its data if it
      stays to send the rest. */
  function Accepted(s: State, op: Op): seq<Byte> {
    if op.Put? then
      match DoPut(s, op).result
      case Refused(_) => []
      case Returned(data, _) => data
      case Pending(_, _) => op.data
    else []
  }

  /** Where a put enters the stream: behind the waiting writers of its own or a higher priority. */
  function Ahead(s: State, op: Op): seq<Byte> {
    if op.Put? then s.buf + Flat(s.writers[..Slot(s.writers, op.prio)]) else Stream(s)
  }

  /** The bytes of the waiting writers that a put overtakes. */
  function Behind(s: State, op: Op): seq<Byte> {
    if op.Put? then Flat(s.writers[Slot(s.writers, op.prio)..]) else []
  }

  lemma {:induction false} AheadBehind(s: State, op: Op)
    ensures Stream(s) == Ahead(s, op) + Behind(s, op)
  {
    if op.Put? {
      var i := Slot(s.writers, op.prio);
      FlatConcat(s.writers[..i], s.writers[i..]);
      assert s.writers == s.writers[..i] + s.writers[i..];
      assert s.buf + (Flat(s.writers[..i]) + Flat(s.writers[i..])) == (s.buf + Flat(s.writers[..i])) + Flat(s.writers[i..]);
    }
  }

  /** What every put and every get does to the stream: the bytes delivered leave at its head and the
      bytes accepted enter behind the writers of the caller's own or a higher priority. */
  lemma {:induction false} StepStream(s: State, op: Op)
    requires Inv(s) && !op.Expire?
    ensures Delivered(s, op) + Stream(Step(s, op).state) == Ahead(s, op) + Accepted(s, op) + Behind(s, op)
  {
    hide Flat, Ahead, Behind, Inv;
    AheadBehind(s, op);
    match op
    case Get(_, _, _, _, _) => GetStream(s, op);
    case Put(_, _, _, _, _) => PutStream(s, op);
  }

  lemma {:induction false} GetStream(s: State, op: Op)
    requires Inv(s) && op.Get?
    ensures Delivered(s, op) + Stream(DoGet(s, op).state) == Ahead(s, op) + Accepted(s, op) + Behind(s, op)
  {
    hide Flat, Taken, WokenByGet, Enqueue;
    TakenStream(s, op.n);
    var bytes := Stream(s);
    assert bytes[..Min(op.n, |bytes|)] + bytes[Min(op.n, |bytes|)..] == bytes;
  }

  lemma {:induction false} PutStream(s: State, op: Op)
    requires Inv(s) && op.Put?
    ensures Delivered(s, op) + Stream(DoPut(s, op).state) == Ahead(s, op) + Accepted(s, op) + Behind(s, op)
  {
    hide Flat, Feed, Hungry, Sated, Tids, Given, GivenCount, Wants, Enqueue, Slot, Inv;
    var k := GivenCount(s, op.data);
    AheadBehind(s, op);
    GivenPlaced(s, op);
    if DoPut(s, op).result.Pending? { BlockedPutStream(s, op); }
  }

  /** What a put hands over at once enters at the same place: if it is not empty, no writer has bytes. */
  lemma {:induction false} GivenPlaced(s: State, op: Op)
    requires Inv(s) && op.Put?
    ensures var k := GivenCount(s, op.data);
      && op.data[..Min(Wants(s.readers), |op.data|)] + Stream(Given(s, op.data)) == Ahead(s, op) + op.data[..k] + Behind(s, op)
      && (k == 0 || Behind(s, op) == [])
  {
    hide Flat, Feed, Hungry, Ahead, Behind, Slot, Sorted;
    GivenStream(s, op.data);
    AheadBehind(s, op);
    PlacedEmpty(s, op);
  }

  lemma {:induction false} PlacedEmpty(s: State, op: Op)
    requires Inv(s) && op.Put?
    ensures GivenCount(s, op.data) == 0 || Behind(s, op) == []
    ensures Behind(s, op) != [] ==> Wants(s.readers) == 0 && |s.buf| == s.cap
  {
    hide Slot, Sorted;
    var i := Slot(s.writers, op.prio);
    FlatConcat(s.writers[..i], s.writers[i..]);
    assert s.writers == s.writers[..i] + s.writers[i..];
  }

  /** The stream once a put that blocks has joined the writers. */
  lemma {:induction false} BlockedPutStream(s: State, op: Op)
    requires Inv(s) && op.Put? && DoPut(s, op).result.Pending?
    ensures op.data[..Min(Wants(s.readers), |op.data|)] + Stream(DoPut(s, op).state) == Ahead(s, op) + op.data + Behind(s, op)
  {
    hide Flat, Feed, Hungry, Sated, Tids, GivenCount, Wants, Enqueue, Slot, Inv;
    var data := op.data;
    var k := GivenCount(s, data);
    var t := Given(s, data);
    var i := Slot(s.writers, op.prio);
    var me := Waiter(op.tid, op.prio, Offer(data[k..], |data|, op.min));
    GivenPlaced(s, op);
    EnqueueFlat(s.writers, me);
    FlatConcat(s.writers[..i], s.writers[i..]);
    assert s.writers == s.writers[..i] + s.writers[i..];
    BlockedRegroup(data[..Min(Wants(s.readers), |data|)], t.buf, Flat(s.writers[..i]), data[k..], Behind(s, op),
                   Ahead(s, op), data[..k]);
    assert data == data[..k] + data[k..];
  }

  lemma {:induction false} BlockedRegroup(
    fed: seq<Byte>, buf: seq<Byte>, front: seq<Byte>, tail: seq<Byte>, back: seq<Byte>, ahead: seq<Byte>, head: seq<Byte>)
    requires fed + (buf + (front + back)) == ahead + head + back
    ensures fed + (buf + (front + tail + back)) == ahead + (head + tail) + back
  {
    var x, y := fed + (buf + front), ahead + head;
    assert fed + (buf + (front + back)) == x + back;
    assert |x| == |y|;
    assert x == (x + back)[..|x|] == (y + back)[..|y|] == y;
    assert fed + (buf + (front + tail + back)) == x + (tail + back);
    assert ahead + (head + tail) + back == y + (tail + back);
  }

  /** The operation neither loses, invents nor reorders a byte. */
  ghost predicate InOrder(s: State, op: Op) {
    Delivered(s, op) + Stream(Step(s, op).state) == Stream(s) + Accepted(s, op)
  }

  /** A put that overtakes nobody's bytes keeps the order, and so does every get. */
  lemma {:induction false} StepConserves(s: State, op: Op)
    requires Inv(s) && !op.Expire? && Behind(s, op) == []
    ensures InOrder(s, op)
  {
    hide Stream, Ahead, Behind, Inv, Accepted, Delivered, Step;
    StepStream(s, op);
    AheadBehind(s, op);
    assert Ahead(s, op) + [] == Ahead(s, op);
  }

  /** Exactly when a put keeps the order whatever its bytes are: nobody of lower priority has bytes
      left, or it has nothing to add, or it fails at once. */
  lemma {:induction false} OvertakesExactly(s: State, op: Op)
    requires Inv(s) && op.Put?
    ensures (forall data: seq<Byte> | |data| == |op.data| :: InOrder(s, op.(data := data))) <==>
      Behind(s, op) == [] || op.data == [] || op.noWait || op.min > |op.data|
  {
    hide Stream, Ahead, Behind, Inv, InOrder, DoPut;
    if Behind(s, op) == [] {
      forall data: seq<Byte> | |data| == |op.data| ensures InOrder(s, op.(data := data)) {
        SameBehind(s, op, data);
        StepConserves(s, op.(data := data));
      }
    } else if op.data == [] || op.noWait || op.min > |op.data| {
      forall data: seq<Byte> | |data| == |op.data| ensures InOrder(s, op.(data := data)) {
        SameBehind(s, op, data);
        NothingAdded(s, op.(data := data));
      }
    } else {
      var other: Byte := !Behind(s, op)[0];
      var data := seq(|op.data|, i => other);
      SameBehind(s, op, data);
      Overtaken(s, op.(data := data));
    }
  }

  lemma {:induction false} SameBehind(s: State, op: Op, data: seq<Byte>)
    requires op.Put?
    ensures Behind(s, op.(data := data)) == Behind(s, op)
  {
  }

  lemma {:induction false} NothingAdded(s: State, op: Op)
    requires Inv(s) && op.Put? && Behind(s, op) != []
    requires op.data == [] || op.noWait || op.min > |op.data|
    ensures InOrder(s, op)
  {
    hide Stream, Ahead, Behind, Inv, Feed, Wants, Given, Sated, Tids;
    PlacedEmpty(s, op);
    StepStream(s, op);
    AheadBehind(s, op);
    assert Accepted(s, op) == [];
    assert Ahead(s, op) + [] + Behind(s, op) == Stream(s) + [];
  }

  lemma {:induction false} Overtaken(s: State, op: Op)
    requires Inv(s) && op.Put? && Behind(s, op) != []
    requires op.data != [] && !op.noWait && op.min <= |op.data| && op.data[0] != Behind(s, op)[0]
    ensures !InOrder(s, op)
  {
    hide Stream, Ahead, Behind, Inv, Feed, Wants, Given, Sated, Tids;
    PlacedEmpty(s, op);
    StepStream(s, op);
    AheadBehind(s, op);
    assert Accepted(s, op) == op.data;
    var n := |Ahead(s, op)|;
    assert (Ahead(s, op) + op.data + Behind(s, op))[n] == op.data[0];
    assert ((Ahead(s, op) + Behind(s, op)) + op.data)[n] == Behind(s, op)[0];
  }

  /** A put of priority 0 gets in front of a waiting writer of priority 5. */
  lemma {:induction false} OvertakeExample()
    ensures
      var s := State(1, [1], [Waiter(1, 5, Offer([2], 1, 1))], []);
      Inv(s) && Stream(s) == [1, 2] && Stream(Step(s, Put(2, 0, [3], 1, false)).state) == [1, 3, 2]
  {
    var w, v := Waiter(1, 5, Offer([2], 1, 1)), Waiter(2, 0, Offer([3], 1, 1));
    var s := State(1, [1], [w], []);
    FlatOne(w);
    var op := Put(2, 0, [3], 1, false);
    assert op.data[0..] == [3];
    assert Step(s, op).state.writers == [v, w];
    assert [v, w][1..] == [w];
    assert Flat([v, w]) == [3] + Flat([w]);
  }

  /** A put feeds the waiting readers and then extends the stream. */
  lemma {:induction false} GivenStream(s: State, data: seq<Byte>)
    requires Inv(s)
    ensures var n := Min(Wants(s.readers), |data|);
      data[..n] + Stream(Given(s, data)) == Stream(s) + data[..GivenCount(s, data)]
  {
    hide Flat, Feed, Hungry;
    hide Sorted;
    var n := Min(Wants(s.readers), |data|);
    var rest := data[n..];
    var j := Min(s.cap - |s.buf|, |rest|);
    assert Given(s, data).buf == s.buf + rest[..j] && Given(s, data).writers == s.writers;
    assert GivenCount(s, data) == n + j;
    assert data[..n + j] == data[..n] + rest[..j];
    assert n > 0 ==> s.readers != [];
    assert n > 0 ==> s.buf == [] && Flat(s.writers) == [];
    assert j > 0 ==> Flat(s.writers) == [];
    PutRegroup(data[..n], s.buf, rest[..j], Flat(s.writers));
    hide *;
  }

  lemma {:induction false} PutRegroup(fed: seq<Byte>, buf: seq<Byte>, put: seq<Byte>, flat: seq<Byte>)
    requires fed != [] ==> buf == [] && flat == []
    requires put != [] ==> flat == []
    ensures fed + ((buf + put) + flat) == (buf + flat) + (fed + put)
  {
  }

  /** What each reader got out of a feeding, put end to end. */
  function NewlyGot(before: seq<Reader>, after: seq<Reader>): seq<Byte>
    requires |before| == |after|
    requires forall i | 0 <= i < |before| :: |before[i].want.got| <= |after[i].want.got|
  {
    if before == [] then []
    else after[0].want.got[|before[0].want.got|..] + NewlyGot(before[1..], after[1..])
  }

  lemma {:induction false} FeedEach(rs: seq<Reader>, bytes: seq<Byte>, i: nat)
    requires i < |rs|
    ensures var f := Feed(rs, bytes);
      && rs[i].want.got <= f[i].want.got && rs[i].tid == f[i].tid
      && |f[i].want.got| + f[i].want.left == |rs[i].want.got| + rs[i].want.left
    decreases rs
  {
    if i > 0 { FeedEach(rs[1..], bytes[Min(rs[0].want.left, |bytes|)..], i - 1); }
  }

  /** Feeding hands the readers a prefix of the bytes, in queue order, with nothing skipped. */
  lemma {:induction false} FeedDelivers(rs: seq<Reader>, bytes: seq<Byte>)
    ensures var f := Feed(rs, bytes);
      && (forall i | 0 <= i < |rs| :: |rs[i].want.got| <= |f[i].want.got|)
      && NewlyGot(rs, f) == bytes[..Min(Wants(rs), |bytes|)]
    decreases rs
  {
    var f := Feed(rs, bytes);
    forall i | 0 <= i < |rs| ensures |rs[i].want.got| <= |f[i].want.got| { FeedEach(rs, bytes, i); }
    if rs != [] {
      var t := Min(rs[0].want.left, |bytes|);
      FeedDelivers(rs[1..], bytes[t..]);
      assert f[1..] == Feed(rs[1..], bytes[t..]);
      assert f[0].want.got[|rs[0].want.got|..] == bytes[..t];
      var m := Min(Wants(rs[1..]), |bytes[t..]|);
      assert Min(Wants(rs), |bytes|) == t + m;
      assert bytes[..t] + bytes[t..][..m] == bytes[..t + m];
      hide Feed, Wants;
    }
  }

  function DeliveredAll(s: State, ops: seq<Op>): seq<Byte>
    decreases ops
  {
    if ops == [] then [] else Delivered(s, ops[0]) + DeliveredAll(Step(s, ops[0]).state, ops[1..])
  }

  function AcceptedAll(s: State, ops: seq<Op>): seq<Byte>
    decreases ops
  {
    if ops == [] then [] else Accepted(s, ops[0]) + AcceptedAll(Step(s, ops[0]).state, ops[1..])
  }

  /** No waiting writer gives up, and all writers have one priority. */
  ghost predicate OneClass(s: State, ops: seq<Op>, prio: int) {
    && (forall w | w in s.writers :: w.prio == prio)
    && (forall op | op in ops :: !op.Expire? && (op.Put? ==> op.prio == prio))
  }

  lemma {:induction false} StepOneClass(s: State, op: Op, prio: int)
    requires (forall w | w in s.writers :: w.prio == prio) && !op.Expire? && (op.Put? ==> op.prio == prio)
    ensures forall w | w in Step(s, op).state.writers :: w.prio == prio
  {
    if op.Put? {
      hide Flat, Feed, Hungry, Sated, Tids;
      var t := Given(s, op.data);
      var k := GivenCount(s, op.data);
      var me := Waiter(op.tid, op.prio, Offer(if k <= |op.data| then op.data[k..] else [], |op.data|, op.min));
      EnqueueAt(t.writers, me);
    } else {
      TakenOneClass(s, op.n, prio);
    }
  }

  lemma {:induction false} OneClassBehind(s: State, op: Op, prio: int)
    requires (forall w | w in s.writers :: w.prio == prio) && (op.Put? ==> op.prio == prio)
    ensures Behind(s, op) == []
  {
    if op.Put? {
      EnqueueAt(s.writers, Waiter(op.tid, prio, Offer([], 0, 0)));
      assert Slot(s.writers, prio) == |s.writers|;
    }
  }

  lemma {:induction false} TakenOneClass(s: State, n: nat, prio: int)
    requires forall w | w in s.writers :: w.prio == prio
    ensures forall w | w in Taken(s, n).writers :: w.prio == prio
  {
    hide Drain, Unfinished, Visited;
    var k := Visited(s.writers, n);
    DrainOneClass(s.writers[..k], n - Min(n, |s.buf|), prio);
    UnfinishedFrom(Drain(s.writers[..k], n - Min(n, |s.buf|)));
    var c := Collected(s, n);
    assert forall w | w in c.writers :: w.prio == prio;
    if |c.buf| < s.cap { DrainOneClass(c.writers, s.cap - |c.buf|, prio); }
  }

  lemma {:induction false} DrainOneClass(ws: seq<Writer>, n: nat, prio: int)
    requires forall w | w in ws :: w.prio == prio
    ensures forall w | w in Drain(ws, n) :: w.prio == prio
  {
    DrainKeepsOrder(ws, n);
    var d := Drain(ws, n);
    forall w | w in d ensures w.prio == prio {
      var i :| 0 <= i < |d| && d[i] == w;
      assert ws[i] in ws;
    }
  }

  lemma {:induction false} UnfinishedFrom(ws: seq<Writer>)
    ensures forall w | w in Unfinished(ws) :: w in ws
    decreases ws
  {
    if ws != [] { UnfinishedFrom(ws[1..]); }
  }

  /** Over any run of puts and gets the bytes delivered, followed by the stream that is left,
      are the bytes that went in, in order. */
  lemma {:induction false} RunConserves(s: State, ops: seq<Op>, prio: int)
    requires Inv(s) && OneClass(s, ops, prio)
    ensures DeliveredAll(s, ops) + Stream(Final(s, ops)) == Stream(s) + AcceptedAll(s, ops)
    decreases ops
  {
    hide Stream, Delivered, Accepted, Step, Inv;
    if ops == [] {
      assert [] + Stream(s) == Stream(s) + [];
    } else {
      var op, t := ops[0], Step(s, ops[0]).state;
      StepKeeps(s, op);
      OneClassBehind(s, op, prio);
      StepConserves(s, op);
      StepOneClass(s, op, prio);
      assert OneClass(t, ops[1..], prio);
      assert DeliveredAll(s, ops) == Delivered(s, op) + DeliveredAll(t, ops[1..]);
      assert AcceptedAll(s, ops) == Accepted(s, op) + AcceptedAll(t, ops[1..]);
      hide OneClass, DeliveredAll, AcceptedAll;
      RunConserves(t, ops[1..], prio);
      Regroup(Delivered(s, op), DeliveredAll(t, ops[1..]), Stream(Final(t, ops[1..])),
              Stream(t), AcceptedAll(t, ops[1..]), Stream(s), Accepted(s, op));
    }
  }

  lemma {:induction false} Regroup(d: seq<Byte>, ds: seq<Byte>, last: seq<Byte>,
                                   mid: seq<Byte>, later: seq<Byte>, first: seq<Byte>, a: seq<Byte>)
    requires ds + last == mid + later && d + mid == first + a
    ensures (d + ds) + last == first + (a + later)
  {
    assert (d + ds) + last == d + (ds + last);
    assert d + (mid + later) == (d + mid) + later;
  }

  // ---------------------------------------------------------------- every run, whatever the order

  /** The bytes a writer takes with it when its wait times out. */
  function Withdrawn(s: State, op: Op): seq<Byte> {
    if op.Expire? then Flat(Only(s.writers, op.tid)) else []
  }

  function Only(ws: seq<Writer>, tid: Tid): seq<Writer> {
    if ws == [] then []
    else if ws[0].tid == tid then [ws[0]] + Only(ws[1..], tid)
    else Only(ws[1..], tid)
  }

  function WithdrawnAll(s: State, ops: seq<Op>): seq<Byte>
    decreases ops
  {
    if ops == [] then [] else Withdrawn(s, ops[0]) + WithdrawnAll(Step(s, ops[0]).state, ops[1..])
  }

  lemma {:induction false} OnlyOrWithout(ws: seq<Writer>, tid: Tid)
    ensures multiset(Flat(Only(ws, tid))) + multiset(Flat(Without(ws, tid))) == multiset(Flat(ws))
    decreases ws
  {
    if ws != [] {
      OnlyOrWithout(ws[1..], tid);
      if ws[0].tid == tid {
        assert Only(ws, tid)[1..] == Only(ws[1..], tid);
      } else {
        assert Without(ws, tid)[1..] == Without(ws[1..], tid);
      }
    }
  }

  lemma {:induction false} StepCounts(s: State, op: Op)
    requires Inv(s)
    ensures multiset(Delivered(s, op)) + multiset(Withdrawn(s, op)) + multiset(Stream(Step(s, op).state)) ==
      multiset(Stream(s)) + multiset(Accepted(s, op))
  {
    if op.Expire? {
      hide Flat, Only, Without;
      OnlyOrWithout(s.writers, op.tid);
    } else {
      hide Stream, Ahead, Behind, Inv, Accepted, Delivered, Step, Flat;
      StepStream(s, op);
      AheadBehind(s, op);
      SameBytes(Delivered(s, op), Stream(Step(s, op).state), Ahead(s, op), Accepted(s, op), Behind(s, op));
    }
  }

  lemma {:induction false} SameBytes(d: seq<Byte>, st: seq<Byte>, x: seq<Byte>, a: seq<Byte>, y: seq<Byte>)
    requires d + st == x + a + y
    ensures multiset(d) + multiset(st) == multiset(x + y) + multiset(a)
  {
    assert multiset(d + st) == multiset(x + a + y);
  }

  /** In every run, with writers of any priorities and with timeouts, each byte that went in was delivered,
      or is in the stream, or was taken back by a writer that timed out: none is lost, none twice. */
  lemma {:induction false} RunCounts(s: State, ops: seq<Op>)
    requires Inv(s)
    ensures multiset(DeliveredAll(s, ops)) + multiset(WithdrawnAll(s, ops)) + multiset(Stream(Final(s, ops))) ==
      multiset(Stream(s)) + multiset(AcceptedAll(s, ops))
    decreases ops
  {
    hide Stream, Delivered, Accepted, Withdrawn, Step, Inv;
    if ops != [] {
      var op, t := ops[0], Step(s, ops[0]).state;
      StepKeeps(s, op);
      StepCounts(s, op);
      RunCounts(t, ops[1..]);
      Balance(Delivered(s, op), DeliveredAll(t, ops[1..]), Withdrawn(s, op), WithdrawnAll(t, ops[1..]),
              Accepted(s, op), AcceptedAll(t, ops[1..]), Stream(s), Stream(t), Stream(Final(t, ops[1..])));
    }
  }

  lemma {:induction false} Balance<T(!new)>(d: seq<T>, ds: seq<T>, w: seq<T>, ws: seq<T>, a: seq<T>, more: seq<T>,
                                   first: seq<T>, mid: seq<T>, last: seq<T>)
    requires multiset(d) + multiset(w) + multiset(mid) == multiset(first) + multiset(a)
    requires multiset(ds) + multiset(ws) + multiset(last) == multiset(mid) + multiset(more)
    ensures multiset(d + ds) + multiset(w + ws) + multiset(last) == multiset(first) + multiset(a + more)
  {
    forall b: T
      ensures (multiset(d + ds) + multiset(w + ws) + multiset(last))[b] == (multiset(first) + multiset(a + more))[b]
    {
      assert (multiset(d) + multiset(w) + multiset(mid))[b] == (multiset(first) + multiset(a))[b];
      assert (multiset(ds) + multiset(ws) + multiset(last))[b] == (multiset(mid) + multiset(more))[b];
    }
  }
}
