/** Work items and work queues of kernel/work.c: the flags of an item, the pending list of a queue,
    flushers, cancellers and draining.  Every method is one section under the work lock. */
module WorkQueues {

  type Wid = nat
  type Fid = nat
  type Cid = nat
  type Qid = nat
  /** Every accepted submission of an item gets a ticket of its own. */
  type Ticket = nat

  datatype Option<+T> = None | Some(value: T)

  /** struct k_work and the queue of struct k_work_delayable. */
  datatype Item = Item(
    running: bool, queued: bool, canceling: bool, delayed: bool,
    queue: Option<Qid>, delayQueue: Option<Qid>)

  /** What a pending list holds: a work item, or a flusher behind one. */
  datatype Node = Work(w: Wid) | Flush(f: Fid)

  /** struct k_work_q; `running` is the node its thread has taken from the list. */
  datatype Queue = Queue(
    started: bool, busy: bool, drain: bool, plugged: bool,
    pending: seq<Node>, running: Option<Node>, drainq: seq<nat>)

  datatype Canceller = Canceller(id: Cid, work: Wid)

  type Items = map<Wid, Item>
  type Queues = map<Qid, Queue>

  /** K_WORK_MASK */
  predicate Busy(it: Item) {
    it.running || it.queued || it.canceling || it.delayed
  }

  // ---------------------------------------------------------------- items and pending lists

  ghost predicate Distinct<T>(s: seq<T>) {
    forall i, j | 0 <= i < j < |s| :: s[i] != s[j]
  }

  /** The item is on the pending list of that queue, by its own flags. */
  predicate QueuedOn(items: Items, w: Wid, q: Qid) {
    w in items && items[w].queued && items[w].queue == Some(q)
  }

  predicate RunningOn(items: Items, w: Wid, q: Qid) {
    w in items && items[w].running && items[w].queue == Some(q)
  }

  /** QUEUED says that the item is once on the list of its own queue and on no other; RUNNING says
      that the thread of its own queue has taken it, and no other has. */
  ghost predicate Linked(items: Items, queues: Queues) {
    && (forall q | q in queues :: Distinct(queues[q].pending))
    && (forall q, w | q in queues :: Work(w) in queues[q].pending <==> QueuedOn(items, w, q))
    && (forall q, w | q in queues :: queues[q].running == Some(Work(w)) <==> RunningOn(items, w, q))
    && (forall w | w in items :: Housed(items[w], queues))
  }

  predicate Housed(it: Item, queues: Queues) {
    && (it.queued || it.running ==> it.queue.Some?)
    && (it.queue.Some? ==> it.queue.value in queues)
    && (it.delayQueue.Some? ==> it.delayQueue.value in queues)
  }

  /** One item and the one queue it lives on change together. */
  lemma {:induction false} LinkedStep(items: Items, queues: Queues, w: Wid, it: Item, q: Qid, wq: Queue)
    requires Linked(items, queues) && q in queues && w in items && Distinct(wq.pending)
    requires items[w].queued || items[w].running ==> items[w].queue == Some(q)
    requires it.queued || it.running ==> it.queue == Some(q)
    requires Housed(it, queues)
    requires Work(w) in wq.pending <==> it.queued
    requires wq.running == Some(Work(w)) <==> it.running
    requires forall u | u != w :: Work(u) in wq.pending <==> Work(u) in queues[q].pending
    requires forall u | u != w :: wq.running == Some(Work(u)) <==> queues[q].running == Some(Work(u))
    ensures Linked(items[w := it], queues[q := wq])
  {
    var items', queues' := items[w := it], queues[q := wq];
    forall p, u | p in queues'
      ensures Work(u) in queues'[p].pending <==> QueuedOn(items', u, p)
      ensures queues'[p].running == Some(Work(u)) <==> RunningOn(items', u, p)
    {
      assert p in queues;
      assert Work(u) in queues[p].pending <==> QueuedOn(items, u, p);
      assert queues[p].running == Some(Work(u)) <==> RunningOn(items, u, p);
    }
  }

  /** Only the flushers of a queue change. */
  lemma {:induction false} LinkedQueue(items: Items, queues: Queues, q: Qid, wq: Queue)
    requires Linked(items, queues) && q in queues && Distinct(wq.pending)
    requires forall u :: Work(u) in wq.pending <==> Work(u) in queues[q].pending
    requires forall u :: wq.running == Some(Work(u)) <==> queues[q].running == Some(Work(u))
    ensures Linked(items, queues[q := wq])
  {
    var queues' := queues[q := wq];
    forall p, u | p in queues'
      ensures Work(u) in queues'[p].pending <==> QueuedOn(items, u, p)
      ensures queues'[p].running == Some(Work(u)) <==> RunningOn(items, u, p)
    {
      assert p in queues;
    }
  }

  /** Only the delay or the cancellation of an item changes. */
  lemma {:induction false} LinkedItem(items: Items, queues: Queues, w: Wid, it: Item)
    requires Linked(items, queues) && w in items
    requires it.queued == items[w].queued && it.running == items[w].running && it.queue == items[w].queue
    requires Housed(it, queues)
    ensures Linked(items[w := it], queues)
  {
    var items' := items[w := it];
    forall p, u | p in queues
      ensures QueuedOn(items', u, p) <==> QueuedOn(items, u, p)
      ensures RunningOn(items', u, p) <==> RunningOn(items, u, p)
    {
    }
  }

  // ---------------------------------------------------------------- flushers

  /** Going down a pending list: whatever a flusher waits for is available, that is closed, in
      progress, or ahead of it in the list. */
  ghost predicate FlushOk(pending: seq<Node>, available: set<Ticket>, tickets: map<Wid, Ticket>, targets: map<Fid, set<Ticket>>) {
    pending == [] ||
    match pending[0]
    case Work(w) => w in tickets && FlushOk(pending[1..], available + {tickets[w]}, tickets, targets)
    case Flush(f) => f in targets && targets[f] <= available && FlushOk(pending[1..], available, tickets, targets)
  }

  lemma {:induction false} FlushOkMore(
    pending: seq<Node>, a: set<Ticket>, b: set<Ticket>, tickets: map<Wid, Ticket>, targets: map<Fid, set<Ticket>>)
    requires FlushOk(pending, a, tickets, targets) && a <= b
    ensures FlushOk(pending, b, tickets, targets)
    decreases pending
  {
    if pending != [] {
      match pending[0]
      case Work(w) => FlushOkMore(pending[1..], a + {tickets[w]}, b + {tickets[w]}, tickets, targets);
      case Flush(f) => FlushOkMore(pending[1..], a, b, tickets, targets);
    }
  }

  lemma {:induction false} FlushOkTicket(
    pending: seq<Node>, a: set<Ticket>, tickets: map<Wid, Ticket>, targets: map<Fid, set<Ticket>>, w: Wid, k: Ticket)
    requires FlushOk(pending, a, tickets, targets) && Work(w) !in pending
    ensures FlushOk(pending, a, tickets[w := k], targets)
    decreases pending
  {
    if pending != [] {
      var rest := pending[1..];
      assert Work(w) !in rest;
      match pending[0]
      case Work(u) => FlushOkTicket(rest, a + {tickets[u]}, tickets, targets, w, k);
      case Flush(f) => FlushOkTicket(rest, a, tickets, targets, w, k);
    }
  }

  lemma {:induction false} FlushOkTarget(
    pending: seq<Node>, a: set<Ticket>, tickets: map<Wid, Ticket>, targets: map<Fid, set<Ticket>>, f: Fid, t: set<Ticket>)
    requires FlushOk(pending, a, tickets, targets) && f !in targets
    ensures FlushOk(pending, a, tickets, targets[f := t])
    ensures Flush(f) !in pending
    decreases pending
  {
    if pending != [] {
      match pending[0]
      case Work(u) => FlushOkTarget(pending[1..], a + {tickets[u]}, tickets, targets, f, t);
      case Flush(_) => FlushOkTarget(pending[1..], a, tickets, targets, f, t);
    }
  }

  lemma {:induction false} FlushOkAppend(
    pending: seq<Node>, a: set<Ticket>, tickets: map<Wid, Ticket>, targets: map<Fid, set<Ticket>>, w: Wid)
    requires FlushOk(pending, a, tickets, targets) && w in tickets
    ensures FlushOk(pending + [Work(w)], a, tickets, targets)
    decreases pending
  {
    if pending == [] {
      assert pending + [Work(w)] == [Work(w)] && [Work(w)][1..] == [];
    } else {
      assert (pending + [Work(w)])[1..] == pending[1..] + [Work(w)];
      match pending[0]
      case Work(u) => FlushOkAppend(pending[1..], a + {tickets[u]}, tickets, targets, w);
      case Flush(_) => FlushOkAppend(pending[1..], a, tickets, targets, w);
    }
  }

  /** Taking an item off the list makes its ticket available from the start. */
  lemma {:induction false} FlushOkRemove(
    pending: seq<Node>, a: set<Ticket>, tickets: map<Wid, Ticket>, targets: map<Fid, set<Ticket>>, i: nat)
    requires FlushOk(pending, a, tickets, targets) && i < |pending| && pending[i].Work?
    ensures pending[i].w in tickets
    ensures FlushOk(pending[..i] + pending[i + 1..], a + {tickets[pending[i].w]}, tickets, targets)
    decreases i
  {
    if i == 0 {
      assert pending[..0] + pending[1..] == pending[1..];
    } else {
      var rest := pending[1..];
      var b := match pending[0] case Work(u) => a + {tickets[u]} case Flush(_) => a;
      FlushOkRemove(rest, b, tickets, targets, i - 1);
      var k, shorter := tickets[pending[i].w], rest[..i - 1] + rest[i..];
      assert pending[..i] + pending[i + 1..] == [pending[0]] + shorter;
      assert ([pending[0]] + shorter)[1..] == shorter;
      match pending[0]
      case Work(u) => assert a + {tickets[u]} + {k} == a + {k} + {tickets[u]};
      case Flush(_) =>
    }
  }

  /** A flusher goes right behind the queued item, or to the front if the item is in progress. */
  lemma {:induction false} FlushOkInsert(
    pending: seq<Node>, a: set<Ticket>, tickets: map<Wid, Ticket>, targets: map<Fid, set<Ticket>>, i: nat, f: Fid)
    requires FlushOk(pending, a, tickets, targets) && i <= |pending| && f in targets
    requires i > 0 ==> pending[i - 1].Work? && pending[i - 1].w in tickets && targets[f] <= a + {tickets[pending[i - 1].w]}
    requires i == 0 ==> targets[f] <= a
    ensures FlushOk(pending[..i] + [Flush(f)] + pending[i..], a, tickets, targets)
    decreases i
  {
    if i == 0 {
      assert pending[..0] + [Flush(f)] + pending[0..] == [Flush(f)] + pending;
      assert ([Flush(f)] + pending)[1..] == pending;
    } else {
      var rest := pending[1..];
      var longer := rest[..i - 1] + [Flush(f)] + rest[i - 1..];
      assert pending[..i] + [Flush(f)] + pending[i..] == [pending[0]] + longer;
      assert ([pending[0]] + longer)[1..] == longer;
      var b := match pending[0] case Work(u) => a + {tickets[u]} case Flush(_) => a;
      assert i > 1 ==> rest[i - 2] == pending[i - 1];
      FlushOkInsert(rest, b, tickets, targets, i - 1, f);
    }
  }

  // ---------------------------------------------------------------- the invariant

  /** The record that says which submissions are over: `queued` and `running` give the ticket of an
      item's queued submission and of its run, `targets` what each flusher waits for, `closed` the
      submissions that have run to the end or been removed by a cancellation. */
  datatype Ledger = Ledger(
    issued: nat, queued: map<Wid, Ticket>, running: map<Wid, Ticket>,
    targets: map<Fid, set<Ticket>>, closed: set<Ticket>)

  /** Open submissions hold different tickets, none of them closed. */
  ghost predicate Ticketed(items: Items, b: Ledger) {
    && (forall k | k in b.closed :: k < b.issued)
    && (forall w | w in items && items[w].queued :: w in b.queued && Open(b.queued[w], b))
    && (forall w | w in items && items[w].running :: w in b.running && Open(b.running[w], b))
    && (forall w, u | w in items && u in items && items[w].queued && items[u].queued && w != u :: b.queued[w] != b.queued[u])
    && (forall w, u | w in items && u in items && items[w].running && items[u].running && w != u :: b.running[w] != b.running[u])
    && (forall w, u | w in items && u in items && items[w].queued && items[u].running :: b.queued[w] != b.running[u])
  }

  ghost predicate Open(k: Ticket, b: Ledger) {
    k < b.issued && k !in b.closed
  }

  ghost function Available(wq: Queue, b: Ledger): set<Ticket> {
    match wq.running
    case Some(Work(w)) => if w in b.running then b.closed + {b.running[w]} else b.closed
    case _ => b.closed
  }

  /** A flusher that has come to its turn has nothing left to wait for. */
  ghost predicate FlushesOk(wq: Queue, b: Ledger) {
    && FlushOk(wq.pending, Available(wq, b), b.queued, b.targets)
    && (wq.running.Some? && wq.running.value.Flush? ==>
          wq.running.value.f in b.targets && b.targets[wq.running.value.f] <= b.closed)
  }

  ghost predicate QueueOk(wq: Queue) {
    && (wq.busy <==> wq.running.Some?)
    && (wq.busy || wq.pending != [] ==> wq.started)
    && (wq.drainq != [] ==> wq.drain)
  }

  ghost predicate ItemOk(it: Item) {
    it.canceling ==> it.running && !it.queued
  }

  ghost predicate DistinctIds(cancels: seq<Canceller>) {
    forall i, j | 0 <= i < j < |cancels| :: cancels[i].id != cancels[j].id
  }

  ghost predicate CancelsOk(items: Items, cancels: seq<Canceller>, released: set<Cid>) {
    && DistinctIds(cancels)
    && (forall i | 0 <= i < |cancels| :: cancels[i].id !in released && cancels[i].work in items && items[cancels[i].work].canceling)
  }

  ghost predicate Inv(items: Items, queues: Queues, b: Ledger) {
    && Linked(items, queues)
    && Ticketed(items, b)
    && (forall w | w in items :: ItemOk(items[w]))
    && (forall q | q in queues :: QueueOk(queues[q]) && FlushesOk(queues[q], b))
  }

  // ---------------------------------------------------------------- what each step keeps

  lemma {:induction false} NotPending(items: Items, queues: Queues, w: Wid)
    requires Linked(items, queues) && w in items && !items[w].queued
    ensures forall q | q in queues :: Work(w) !in queues[q].pending
  {
    forall q | q in queues ensures Work(w) !in queues[q].pending {
      assert !QueuedOn(items, w, q);
    }
  }

  lemma {:induction false} NotRunning(items: Items, queues: Queues, w: Wid)
    requires Linked(items, queues) && w in items && !items[w].running
    ensures forall q | q in queues :: queues[q].running != Some(Work(w))
  {
    forall q | q in queues ensures queues[q].running != Some(Work(w)) {
      assert !RunningOn(items, w, q);
    }
  }

  function Submitted(b: Ledger, w: Wid): Ledger {
    b.(issued := b.issued + 1, queued := b.queued[w := b.issued])
  }

  lemma {:induction false} SubmitTicketed(items: Items, b: Ledger, w: Wid, q: Qid)
    requires Ticketed(items, b) && w in items && !items[w].queued
    ensures Ticketed(items[w := items[w].(queued := true, queue := Some(q))], Submitted(b, w))
  {
    var b' := Submitted(b, w);
    assert forall k: Ticket :: Open(k, b) ==> Open(k, b');
    assert Open(b.issued, b');
  }

  lemma {:induction false} SubmitFlushes(wq: Queue, b: Ledger, w: Wid)
    requires FlushesOk(wq, b) && Work(w) !in wq.pending
    ensures FlushesOk(wq, Submitted(b, w))
    ensures FlushesOk(wq.(pending := wq.pending + [Work(w)]), Submitted(b, w))
  {
    var b', a := Submitted(b, w), Available(wq, b);
    assert Available(wq, b') == a == Available(wq.(pending := wq.pending + [Work(w)]), b');
    FlushOkTicket(wq.pending, a, b.queued, b.targets, w, b.issued);
    FlushOkAppend(wq.pending, a, b'.queued, b.targets, w);
  }

  lemma {:induction false} SubmitKeeps(items: Items, queues: Queues, b: Ledger, w: Wid, q: Qid)
    requires Inv(items, queues, b) && w in items && q in queues && queues[q].started
    requires !items[w].queued && !items[w].canceling && (items[w].running ==> items[w].queue == Some(q))
    ensures
      Inv(items[w := items[w].(queued := true, queue := Some(q))],
          queues[q := queues[q].(pending := queues[q].pending + [Work(w)])],
          Submitted(b, w))
  {
    hide Linked, Ticketed, FlushesOk, Submitted;
    var it, wq := items[w].(queued := true, queue := Some(q)), queues[q].(pending := queues[q].pending + [Work(w)]);
    NotPending(items, queues, w);
    RunsHere(items, queues, w, q);
    DistinctAppend(queues[q].pending, Work(w));
    LinkedStep(items, queues, w, it, q, wq);
    SubmitTicketed(items, b, w, q);
    var queues' := queues[q := wq];
    forall p | p in queues' ensures QueueOk(queues'[p]) && FlushesOk(queues'[p], Submitted(b, w)) {
      SubmitFlushes(queues[p], b, w);
    }
  }

  lemma {:induction false} RunsHere(items: Items, queues: Queues, w: Wid, q: Qid)
    requires Linked(items, queues) && w in items && q in queues
    ensures queues[q].running == Some(Work(w)) <==> items[w].running && items[w].queue == Some(q)
    ensures Work(w) in queues[q].pending <==> items[w].queued && items[w].queue == Some(q)
    ensures Distinct(queues[q].pending) && Housed(items[w], queues)
  {
    assert queues[q].running == Some(Work(w)) <==> RunningOn(items, w, q);
    assert Work(w) in queues[q].pending <==> QueuedOn(items, w, q);
  }

  lemma {:induction false} DistinctAppend<T>(s: seq<T>, x: T)
    requires Distinct(s) && x !in s
    ensures Distinct(s + [x])
  {
  }

  lemma {:induction false} DistinctInsert<T>(s: seq<T>, i: nat, x: T)
    requires Distinct(s) && x !in s && i <= |s|
    ensures Distinct(s[..i] + [x] + s[i..])
    ensures forall y :: y in s[..i] + [x] + s[i..] <==> y in s || y == x
  {
    InsertMembers(s, i, x);
    var r := s[..i] + [x] + s[i..];
    assert forall j | 0 <= j < |r| :: r[j] == if j < i then s[j] else if j == i then x else s[j - 1];
  }

  lemma {:induction false} InsertMembers<T>(s: seq<T>, i: nat, x: T)
    requires i <= |s|
    ensures forall y :: y in s[..i] + [x] + s[i..] <==> y in s || y == x
  {
    assert s == s[..i] + s[i..];
  }

  lemma {:induction false} DistinctRemove<T>(s: seq<T>, i: nat)
    requires Distinct(s) && i < |s|
    ensures Distinct(s[..i] + s[i + 1..])
    ensures forall y :: y in s[..i] + s[i + 1..] <==> y in s && y != s[i]
  {
    var r := s[..i] + s[i + 1..];
    assert forall j | 0 <= j < |r| :: r[j] == if j < i then s[j] else s[j + 1];
    forall y | y in s && y != s[i] ensures y in r {
      var j :| 0 <= j < |s| && s[j] == y;
      assert r[if j < i then j else j - 1] == y;
    }
  }

  /** The tickets a flush issued now has to wait for. */
  ghost function Targets(it: Item, w: Wid, b: Ledger): set<Ticket> {
    (if it.queued && w in b.queued then {b.queued[w]} else {}) +
    (if it.running && w in b.running then {b.running[w]} else {})
  }

  lemma {:induction false} FlushFlushes(wq: Queue, b: Ledger, f: Fid, t: set<Ticket>)
    requires FlushesOk(wq, b) && f !in b.targets
    ensures FlushesOk(wq, b.(targets := b.targets[f := t])) && Flush(f) !in wq.pending
  {
    FlushOkTarget(wq.pending, Available(wq, b), b.queued, b.targets, f, t);
    assert Available(wq, b.(targets := b.targets[f := t])) == Available(wq, b);
  }

  lemma {:induction false} FlushInserted(wq: Queue, b: Ledger, w: Wid, it: Item, f: Fid, i: nat)
    requires FlushesOk(wq, b) && f in b.targets && b.targets[f] == Targets(it, w, b) && i <= |wq.pending|
    requires it.queued ==> i > 0 && wq.pending[i - 1] == Work(w) && w in b.queued
    requires !it.queued ==> i == 0
    requires it.running ==> wq.running == Some(Work(w)) && w in b.running
    ensures FlushesOk(wq.(pending := wq.pending[..i] + [Flush(f)] + wq.pending[i..]), b)
  {
    FlushOkInsert(wq.pending, Available(wq, b), b.queued, b.targets, i, f);
    assert Available(wq.(pending := wq.pending[..i] + [Flush(f)] + wq.pending[i..]), b) == Available(wq, b);
  }

  lemma {:induction false} FlushKeeps(items: Items, queues: Queues, b: Ledger, w: Wid, q: Qid, f: Fid, i: nat)
    requires Inv(items, queues, b) && w in items && q in queues && items[w].queue == Some(q) && f !in b.targets
    requires items[w].queued || items[w].running
    requires i <= |queues[q].pending|
    requires items[w].queued ==> i > 0 && queues[q].pending[i - 1] == Work(w)
    requires !items[w].queued ==> i == 0
    ensures
      Inv(items, queues[q := queues[q].(pending := queues[q].pending[..i] + [Flush(f)] + queues[q].pending[i..])],
          b.(targets := b.targets[f := Targets(items[w], w, b)]))
  {
    hide Linked, FlushesOk, Distinct;
    var pending := queues[q].pending;
    var wq := queues[q].(pending := pending[..i] + [Flush(f)] + pending[i..]);
    var b' := b.(targets := b.targets[f := Targets(items[w], w, b)]);
    var queues' := queues[q := wq];
    RunsHere(items, queues, w, q);
    FlushFlushes(queues[q], b, f, Targets(items[w], w, b));
    DistinctInsert(pending, i, Flush(f));
    LinkedQueue(items, queues, q, wq);
    FlushTicketed(items, b, w, f, Targets(items[w], w, b));
    FlushInserted(queues[q], b', w, items[w], f, i);
    forall p | p in queues' ensures QueueOk(queues'[p]) && FlushesOk(queues'[p], b') {
      if p != q { FlushFlushes(queues[p], b, f, b'.targets[f]); }
    }
  }

  lemma {:induction false} FlushTicketed(items: Items, b: Ledger, w: Wid, f: Fid, t: set<Ticket>)
    requires Ticketed(items, b) && w in items
    ensures Ticketed(items, b.(targets := b.targets[f := t]))
    ensures items[w].queued ==> w in b.queued
    ensures items[w].running ==> w in b.running
  {
    assert forall k :: Open(k, b.(targets := b.targets[f := t])) <==> Open(k, b);
  }

  // Cancelling: the queued submission, if any, is closed; a run goes on as CANCELING.

  function CancelledItem(it: Item): Item {
    it.(queued := false, delayed := false, canceling := it.running)
  }

  ghost function Closed(b: Ledger, k: Ticket): Ledger {
    b.(closed := b.closed + {k})
  }

  lemma {:induction false} ClosedGiven(flushed: set<Fid>, b: Ledger, k: Ticket)
    requires Given(flushed, b)
    ensures Given(flushed, Closed(b, k)) && Closed(b, k).targets == b.targets && b.closed <= Closed(b, k).closed
  {
  }

  lemma {:induction false} ClosedFlushes(wq: Queue, b: Ledger, k: Ticket)
    requires FlushesOk(wq, b)
    ensures FlushesOk(wq, Closed(b, k))
  {
    FlushOkMore(wq.pending, Available(wq, b), Available(wq, Closed(b, k)), b.queued, b.targets);
  }

  lemma {:induction false} RemoveFlushes(wq: Queue, b: Ledger, i: nat)
    requires FlushesOk(wq, b) && i < |wq.pending| && wq.pending[i].Work?
    ensures wq.pending[i].w in b.queued
    ensures FlushesOk(wq.(pending := wq.pending[..i] + wq.pending[i + 1..]), Closed(b, b.queued[wq.pending[i].w]))
  {
    FlushOkRemove(wq.pending, Available(wq, b), b.queued, b.targets, i);
    var k, shorter := b.queued[wq.pending[i].w], wq.(pending := wq.pending[..i] + wq.pending[i + 1..]);
    assert Available(shorter, Closed(b, k)) == Available(wq, b) + {k};
    ClosedFlushes(wq, b, k);
  }

  lemma {:induction false} RemoveTicketed(items: Items, b: Ledger, w: Wid)
    requires Ticketed(items, b) && w in items && items[w].queued
    ensures w in b.queued
    ensures Ticketed(items[w := CancelledItem(items[w])], Closed(b, b.queued[w]))
  {
    var k := b.queued[w];
    assert Open(k, b);
    forall u | u in items && items[u].queued && u != w ensures u in b.queued && Open(b.queued[u], Closed(b, k)) {
      assert Open(b.queued[u], b);
    }
    forall u | u in items && items[u].running ensures u in b.running && Open(b.running[u], Closed(b, k)) {
      assert Open(b.running[u], b);
    }
  }

  /** queue_remove_locked() and the flags that follow. */
  lemma {:induction false} CancelQueuedKeeps(items: Items, queues: Queues, b: Ledger, w: Wid, q: Qid, i: nat)
    requires Inv(items, queues, b) && w in items && q in queues && QueuedOn(items, w, q)
    requires i < |queues[q].pending| && queues[q].pending[i] == Work(w)
    ensures w in b.queued
    ensures
      Inv(items[w := CancelledItem(items[w])],
          queues[q := queues[q].(pending := queues[q].pending[..i] + queues[q].pending[i + 1..])],
          Closed(b, b.queued[w]))
  {
    hide Linked, FlushesOk, Distinct, Ticketed;
    var pending := queues[q].pending;
    var wq := queues[q].(pending := pending[..i] + pending[i + 1..]);
    RunsHere(items, queues, w, q);
    DistinctRemove(pending, i);
    LinkedStep(items, queues, w, CancelledItem(items[w]), q, wq);
    RemoveTicketed(items, b, w);
    RemoveFlushes(queues[q], b, i);
    var queues' := queues[q := wq];
    forall p | p in queues' ensures QueueOk(queues'[p]) && FlushesOk(queues'[p], Closed(b, b.queued[w])) {
      if p != q { ClosedFlushes(queues[p], b, b.queued[w]); }
    }
  }

  /** An item's flags other than QUEUED and RUNNING change. */
  lemma {:induction false} FlagsKeep(items: Items, queues: Queues, b: Ledger, w: Wid, it: Item)
    requires Inv(items, queues, b) && w in items && ItemOk(it) && Housed(it, queues)
    requires it.queued == items[w].queued && it.running == items[w].running && it.queue == items[w].queue
    ensures Inv(items[w := it], queues, b)
  {
    hide Linked, FlushesOk, QueueOk, Open;
    LinkedItem(items, queues, w, it);
  }

  // The queue thread.

  function Taken(it: Item): Item {
    it.(running := true, queued := false)
  }

  ghost function Started(b: Ledger, w: Wid): Ledger
    requires w in b.queued
  {
    b.(running := b.running[w := b.queued[w]])
  }

  function Busied(wq: Queue): Queue
    requires wq.pending != []
  {
    wq.(busy := true, running := Some(wq.pending[0]), pending := wq.pending[1..])
  }

  lemma {:induction false} TakeTicketed(items: Items, b: Ledger, w: Wid)
    requires Ticketed(items, b) && w in items && items[w].queued && !items[w].running
    ensures w in b.queued && Ticketed(items[w := Taken(items[w])], Started(b, w))
  {
    var b' := Started(b, w);
    assert forall k :: Open(k, b) <==> Open(k, b');
  }

  lemma {:induction false} TakeFlushes(wq: Queue, b: Ledger)
    requires FlushesOk(wq, b) && wq.pending != [] && wq.pending[0].Work? && wq.running == None
    ensures wq.pending[0].w in b.queued && FlushesOk(Busied(wq), Started(b, wq.pending[0].w))
  {
    var w := wq.pending[0].w;
    assert Available(Busied(wq), Started(b, w)) == Available(wq, b) + {b.queued[w]};
  }

  lemma {:induction false} StartedFlushes(wq: Queue, b: Ledger, w: Wid)
    requires FlushesOk(wq, b) && w in b.queued && wq.running != Some(Work(w))
    ensures FlushesOk(wq, Started(b, w))
  {
    assert Available(wq, Started(b, w)) == Available(wq, b);
  }

  lemma {:induction false} TakeWorkKeeps(items: Items, queues: Queues, b: Ledger, q: Qid)
    requires Inv(items, queues, b) && q in queues && queues[q].running == None
    requires queues[q].pending != [] && queues[q].pending[0].Work?
    ensures
      var w := queues[q].pending[0].w;
      && w in items && items[w].queued && w in b.queued
      && Inv(items[w := Taken(items[w])], queues[q := Busied(queues[q])], Started(b, w))
  {
    hide Linked, FlushesOk, Distinct, Ticketed;
    var w := queues[q].pending[0].w;
    HeadQueued(items, queues, q);
    RunsHere(items, queues, w, q);
    NotRunning(items, queues, w);
    var wq := Busied(queues[q]);
    DistinctRemove(queues[q].pending, 0);
    assert queues[q].pending[..0] + queues[q].pending[1..] == wq.pending;
    LinkedStep(items, queues, w, Taken(items[w]), q, wq);
    TakeTicketed(items, b, w);
    var queues' := queues[q := wq];
    forall p | p in queues' ensures QueueOk(queues'[p]) && FlushesOk(queues'[p], Started(b, w)) {
      assert QueueOk(queues[p]) && FlushesOk(queues[p], b);
      if p == q { TakeFlushes(queues[q], b); } else { StartedFlushes(queues[p], b, w); }
    }
  }

  lemma {:induction false} HeadQueued(items: Items, queues: Queues, q: Qid)
    requires Linked(items, queues) && q in queues && queues[q].running == None
    requires queues[q].pending != [] && queues[q].pending[0].Work?
    ensures var w := queues[q].pending[0].w; QueuedOn(items, w, q) && !items[w].running
  {
    var w := queues[q].pending[0].w;
    assert Work(w) in queues[q].pending;
    assert QueuedOn(items, w, q) && !RunningOn(items, w, q);
  }

  /** A flusher comes to its turn: everything it was to wait for is over. */
  lemma {:induction false} TakeFlusherKeeps(items: Items, queues: Queues, b: Ledger, q: Qid)
    requires Inv(items, queues, b) && q in queues && queues[q].running == None
    requires queues[q].pending != [] && queues[q].pending[0].Flush?
    ensures Inv(items, queues[q := Busied(queues[q])], b)
    ensures var f := queues[q].pending[0].f; f in b.targets && b.targets[f] <= b.closed
  {
    hide Linked, Distinct, Ticketed;
    var pending := queues[q].pending;
    assert FlushesOk(queues[q], b) && QueueOk(queues[q]);
    QueueDistinct(items, queues, q);
    DistinctRemove(pending, 0);
    assert pending[..0] + pending[1..] == pending[1..];
    LinkedQueue(items, queues, q, Busied(queues[q]));
    assert Available(Busied(queues[q]), b) == Available(queues[q], b);
  }

  lemma {:induction false} QueueDistinct(items: Items, queues: Queues, q: Qid)
    requires Linked(items, queues) && q in queues
    ensures Distinct(queues[q].pending)
  {
  }

  function Idle(wq: Queue): Queue {
    wq.(busy := false, running := None)
  }

  lemma {:induction false} FinishTicketed(items: Items, b: Ledger, w: Wid)
    requires Ticketed(items, b) && w in items && items[w].running
    ensures w in b.running
    ensures Ticketed(items[w := items[w].(running := false, canceling := false)], Closed(b, b.running[w]))
  {
    var k := b.running[w];
    assert Open(k, b);
    forall u | u in items && items[u].queued ensures u in b.queued && Open(b.queued[u], Closed(b, k)) {
      assert Open(b.queued[u], b);
    }
    forall u | u in items && items[u].running && u != w ensures u in b.running && Open(b.running[u], Closed(b, k)) {
      assert Open(b.running[u], b);
    }
  }

  lemma {:induction false} FinishFlushes(wq: Queue, b: Ledger, w: Wid)
    requires FlushesOk(wq, b) && wq.running == Some(Work(w)) && w in b.running
    ensures FlushesOk(Idle(wq), Closed(b, b.running[w]))
  {
    assert Available(Idle(wq), Closed(b, b.running[w])) == Available(wq, b);
  }

  /** A handler returns. */
  lemma {:induction false} FinishWorkKeeps(items: Items, queues: Queues, b: Ledger, q: Qid, w: Wid)
    requires Inv(items, queues, b) && q in queues && queues[q].running == Some(Work(w))
    ensures w in items && w in b.running && RunningOn(items, w, q)
    ensures
      Inv(items[w := items[w].(running := false, canceling := false)], queues[q := Idle(queues[q])],
          Closed(b, b.running[w]))
  {
    hide Linked, FlushesOk, Distinct, Ticketed;
    RunningItem(items, queues, q, w);
    RunsHere(items, queues, w, q);
    LinkedStep(items, queues, w, items[w].(running := false, canceling := false), q, Idle(queues[q]));
    FinishTicketed(items, b, w);
    FinishFlushes(queues[q], b, w);
    var queues' := queues[q := Idle(queues[q])];
    forall p | p in queues' ensures QueueOk(queues'[p]) && FlushesOk(queues'[p], Closed(b, b.running[w])) {
      assert QueueOk(queues[p]);
      if p != q { ClosedFlushes(queues[p], b, b.running[w]); }
    }
  }

  lemma {:induction false} RunningItem(items: Items, queues: Queues, q: Qid, w: Wid)
    requires Linked(items, queues) && q in queues && queues[q].running == Some(Work(w))
    ensures w in items && RunningOn(items, w, q)
  {
    assert RunningOn(items, w, q);
  }

  /** The queue's own flags change, or its flusher is done. */
  lemma {:induction false} QueueKeeps(items: Items, queues: Queues, b: Ledger, q: Qid, wq: Queue)
    requires Inv(items, queues, b) && q in queues && QueueOk(wq)
    requires wq.pending == queues[q].pending
    requires wq.running == queues[q].running || (wq.running == None && queues[q].running.Some? && queues[q].running.value.Flush?)
    ensures Inv(items, queues[q := wq], b)
  {
    hide Linked, Distinct, Ticketed;
    QueueDistinct(items, queues, q);
    LinkedQueue(items, queues, q, wq);
    assert FlushesOk(queues[q], b);
    assert Available(wq, b) == Available(queues[q], b);
  }

  // ---------------------------------------------------------------- the work system

  const EBUSY := 16
  const ENODEV := 19
  const EINVAL := 22
  const EALREADY := 120

  /** Whether a queue takes new work: it must have been started; while draining it takes only what
      its own thread submits, and while plugged nothing unless it is draining. */
  predicate Accepts(wq: Queue, chained: bool) {
    wq.started && (if wq.drain then chained else !wq.plugged)
  }

  /** The queue a submission goes to: a running item stays on the queue that runs it. */
  function Destination(it: Item, q: Option<Qid>): Option<Qid> {
    if it.running || q == None then it.queue else q
  }

  /** What a submission comes to: its code, and the items and queues after it.  A canceling item is
      refused; a queued one is left alone; otherwise the queue decides, and a running item is
      marked by the code 2. */
  datatype Outcome = Outcome(code: int, items: Items, queues: Queues)

  function Submission(items: Items, queues: Queues, w: Wid, q: Option<Qid>, caller: Option<Qid>): Outcome
    requires w in items && Housed(items[w], queues) && (q.Some? ==> q.value in queues)
  {
    var it := items[w];
    var dest := Destination(it, q);
    if it.canceling then Outcome(-EBUSY, items, queues)
    else if it.queued then Outcome(0, items, queues)
    else if dest == None then Outcome(-EINVAL, items, queues)
    else
      var wq := queues[dest.value];
      if !wq.started then Outcome(-ENODEV, items, queues)
      else if !Accepts(wq, caller == dest) then Outcome(-EBUSY, items, queues)
      else Outcome(if it.running then 2 else 1, items[w := it.(queued := true, queue := dest)],
                   queues[dest.value := wq.(pending := wq.pending + [Work(w)])])
  }

  /** The codes in flags.  A draining queue takes only what its own thread submits, whether or not it is
      plugged; a plugged one that is not draining takes nothing. */
  lemma {:induction false} SubmissionCodes(items: Items, queues: Queues, w: Wid, q: Option<Qid>, caller: Option<Qid>)
    requires w in items && Housed(items[w], queues) && (q.Some? ==> q.value in queues)
    ensures
      var it, o := items[w], Submission(items, queues, w, q, caller);
      var dest := if it.running || q == None then it.queue else q;
      if it.canceling then o == Outcome(-16, items, queues)
      else if it.queued then o == Outcome(0, items, queues)
      else if dest == None then o == Outcome(-22, items, queues)
      else
        var dq := queues[dest.value];
        && (o.code == -19 <==> !dq.started)
        && (o.code == -16 <==> dq.started && ((dq.drain && caller != dest) || (dq.plugged && !dq.drain)))
        && (o.code != -19 && o.code != -16 ==> o.code == if it.running then 2 else 1)
        && (o.code < 0 ==> o.items == items && o.queues == queues)
        && (o.code > 0 ==>
              && o.items == items[w := it.(queued := true, queue := dest)]
              && o.queues == queues[dest.value := dq.(pending := dq.pending + [Work(w)])])
  {
  }

  /** Work is added only to lists of started queues; to one that is draining only by its own thread,
      and to one that is plugged and not draining not at all. */
  ghost predicate Gated(queues: Queues, caller: Option<Qid>, queues': Queues) {
    && (forall q | q in queues :: q in queues')
    && (forall q, w | q in queues && Added(queues[q], queues'[q], w) ::
          queues[q].started && (if queues[q].drain then caller == Some(q) else !queues[q].plugged))
    && (forall q, w | q in queues' && q !in queues :: Work(w) !in queues'[q].pending)
  }

  ghost predicate Added(was: Queue, now: Queue, w: Wid) {
    Work(w) in now.pending && Work(w) !in was.pending
  }

  lemma {:induction false} SubmissionGated(items: Items, queues: Queues, w: Wid, q: Option<Qid>, caller: Option<Qid>)
    requires w in items && Housed(items[w], queues) && (q.Some? ==> q.value in queues)
    ensures Gated(queues, caller, Submission(items, queues, w, q, caller).queues)
  {
    hide Accepts, Destination, Submission;
    SubmissionCodes(items, queues, w, q, caller);
  }

  lemma {:induction false} StaysUndelayed(items: Items, queues: Queues, w: Wid, q: Option<Qid>)
    requires w in items && Housed(items[w], queues) && (q.Some? ==> q.value in queues)
    ensures var o := Submission(items, queues, w, q, None); w in o.items && o.items[w].delayed == items[w].delayed
  {
  }

  /** Whatever adds no work passes. */
  lemma {:induction false} GatedLess(queues: Queues, caller: Option<Qid>, mid: Queues, queues': Queues)
    requires Gated(queues, caller, mid)
    requires forall q | q in mid :: q in queues' && forall w | Work(w) in queues'[q].pending :: Work(w) in mid[q].pending
    requires forall q | q in queues' && q !in mid :: queues'[q].pending == []
    ensures Gated(queues, caller, queues')
  {
    forall q, w | q in queues && Added(queues[q], queues'[q], w)
      ensures queues[q].started && (if queues[q].drain then caller == Some(q) else !queues[q].plugged)
    {
      assert Added(queues[q], mid[q], w);
    }
  }

  lemma {:induction false} GatedSame(queues: Queues, caller: Option<Qid>)
    ensures Gated(queues, caller, queues)
  {
  }

  /** The queues once the item is off the list it may be on. */
  function Unqueued(items: Items, queues: Queues, w: Wid): Queues {
    if w in items && items[w].queued && items[w].queue.Some? && items[w].queue.value in queues then
      var q := items[w].queue.value;
      queues[q := queues[q].(pending := Minus(queues[q].pending, Work(w)))]
    else queues
  }

  lemma {:induction false} UnqueuedFrame(items: Items, queues: Queues, w: Wid, it: Item)
    requires w in items && it.queued == items[w].queued && it.queue == items[w].queue
    ensures Unqueued(items[w := it], queues, w) == Unqueued(items, queues, w)
  {
  }

  lemma {:induction false} UnqueuedNot(items: Items, queues: Queues, w: Wid)
    requires w in items && !items[w].queued
    ensures Unqueued(items, queues, w) == queues
  {
  }

  lemma {:induction false} UnqueuedGated(items: Items, queues: Queues, w: Wid)
    ensures Gated(queues, None, Unqueued(items, queues, w))
  {
    GatedSame(queues, None);
    if w in items && items[w].queued && items[w].queue.Some? && items[w].queue.value in queues {
      MinusLess(queues[items[w].queue.value].pending, Work(w));
      GatedLess(queues, None, queues, Unqueued(items, queues, w));
    }
  }

  lemma {:induction false} MinusLess(pending: seq<Node>, n: Node)
    ensures forall m | m in Minus(pending, n) :: m in pending
    decreases pending
  {
    if pending != [] { MinusLess(pending[1..], n); }
  }

  /** A pending list without one of its nodes. */
  function Minus(pending: seq<Node>, n: Node): seq<Node> {
    if pending == [] then [] else if pending[0] == n then pending[1..] else [pending[0]] + Minus(pending[1..], n)
  }

  lemma {:induction false} MinusAt(pending: seq<Node>, n: Node, i: nat)
    requires i < |pending| && pending[i] == n && forall j | 0 <= j < i :: pending[j] != n
    ensures Minus(pending, n) == pending[..i] + pending[i + 1..]
    decreases i
  {
    if i == 0 {
      assert pending[..0] + pending[1..] == pending[1..];
    } else {
      MinusAt(pending[1..], n, i - 1);
      assert pending[..i] == [pending[0]] + pending[1..][..i - 1];
    }
  }

  /** Cancellers of other items, in their order. */
  function Others(cancels: seq<Canceller>, w: Wid): (r: seq<Canceller>)
    ensures forall c :: c in r <==> c in cancels && c.work != w
  {
    if cancels == [] then []
    else if cancels[0].work == w then Others(cancels[1..], w)
    else [cancels[0]] + Others(cancels[1..], w)
  }

  /** The cancellers of an item. */
  ghost function Ids(cancels: seq<Canceller>, w: Wid): set<Cid> {
    set c | c in cancels && c.work == w :: c.id
  }

  lemma {:induction false} IdsAppend(cancels: seq<Canceller>, c: Canceller, w: Wid)
    ensures Ids(cancels + [c], w) == if c.work == w then Ids(cancels, w) + {c.id} else Ids(cancels, w)
  {
    assert c in cancels + [c];
    forall d | d in cancels ensures d in cancels + [c] { }
  }

  lemma {:induction false} OthersAppend(cancels: seq<Canceller>, c: Canceller, w: Wid)
    ensures Others(cancels + [c], w) == if c.work == w then Others(cancels, w) else Others(cancels, w) + [c]
    decreases cancels
  {
    if cancels == [] {
      assert cancels + [c] == [c] && [c][1..] == [];
    } else {
      assert (cancels + [c])[1..] == cancels[1..] + [c];
      OthersAppend(cancels[1..], c, w);
    }
  }

  lemma {:induction false} NoIds(w: Wid)
    ensures Ids([], w) == {} && Others([], w) == []
  {
  }

  lemma {:induction false} OthersOk(items: Items, cancels: seq<Canceller>, released: set<Cid>, w: Wid, it: Item, ids: set<Cid>)
    requires CancelsOk(items, cancels, released) && w in items
    requires ids == Ids(cancels, w)
    ensures CancelsOk(items[w := it], Others(cancels, w), released + ids)
    ensures ids !! released
  {
    var rest := Others(cancels, w);
    forall i | 0 <= i < |rest| ensures rest[i] in cancels && rest[i].work != w { }
    forall x | x in rest ensures x.id !in released + ids {
      var j :| 0 <= j < |cancels| && cancels[j] == x;
      forall c | c in cancels && c.work == w ensures c.id != x.id {
        var k :| 0 <= k < |cancels| && cancels[k] == c;
      }
    }
    OthersDistinct(cancels, w);
    assert forall c | c in cancels :: c.id !in released;
  }

  lemma {:induction false} OthersDistinct(cancels: seq<Canceller>, w: Wid)
    requires DistinctIds(cancels)
    ensures DistinctIds(Others(cancels, w))
    decreases cancels
  {
    if cancels != [] {
      var rest := cancels[1..];
      assert forall i | 0 <= i < |rest| :: rest[i] == cancels[i + 1];
      OthersDistinct(rest, w);
      var r := Others(rest, w);
      forall i | 0 <= i < |r| ensures r[i].id != cancels[0].id {
        assert r[i] in rest;
      }
    }
  }

  ghost predicate Fresh(f: Fid, c: Cid, targets: map<Fid, set<Ticket>>, cancels: seq<Canceller>, released: set<Cid>) {
    && (forall g | g in targets :: g < f)
    && (forall d | d in released :: d < c)
    && (forall i | 0 <= i < |cancels| :: cancels[i].id < c)
  }

  /** No flush has been let through before all it was to wait for was over. */
  ghost predicate Given(flushed: set<Fid>, b: Ledger) {
    forall f | f in flushed :: f in b.targets && b.targets[f] <= b.closed
  }

  /** The flusher stands right behind the item if that is queued, else at the front. */
  ghost predicate FlusherIn(was: Queue, now: Queue, w: Wid, queued: bool, f: Fid, at: nat) {
    && at <= |was.pending|
    && (if queued then at > 0 && was.pending[at - 1] == Work(w) else at == 0)
    && now == was.(pending := was.pending[..at] + [Flush(f)] + was.pending[at..])
  }

  lemma {:induction false} FreshOthers(
    f: Fid, c: Cid, targets: map<Fid, set<Ticket>>, cancels: seq<Canceller>, released: set<Cid>, w: Wid, ids: set<Cid>)
    requires Fresh(f, c, targets, cancels, released) && ids == Ids(cancels, w)
    ensures Fresh(f, c, targets, Others(cancels, w), released + ids)
  {
    assert forall x | x in cancels :: x.id < c;
    var rest := Others(cancels, w);
    forall i | 0 <= i < |rest| ensures rest[i].id < c { assert rest[i] in cancels; }
  }

  // ---------------------------------------------------------------- how the record moves on

  /** The ticket of a submission that is queued or running now. */
  ghost predicate Held(items: Items, b: Ledger, k: Ticket) {
    exists w :: HeldBy(items, b, w, k)
  }

  ghost predicate HeldBy(items: Items, b: Ledger, w: Wid, k: Ticket) {
    HeldQueued(items, b, w, k) || HeldRunning(items, b, w, k)
  }

  ghost predicate HeldQueued(items: Items, b: Ledger, w: Wid, k: Ticket) {
    w in items && items[w].queued && w in b.queued && b.queued[w] == k
  }

  ghost predicate HeldRunning(items: Items, b: Ledger, w: Wid, k: Ticket) {
    w in items && items[w].running && w in b.running && b.running[w] == k
  }

  /** A submission keeps its ticket while it is queued, when it is taken to run and while it runs,
      until the ticket is closed. */
  ghost predicate TicketsStay(items: Items, b: Ledger, items': Items, b': Ledger) {
    forall w: Wid, k: Ticket ::
      && (HeldQueued(items, b, w, k) ==> k in b'.closed || HeldBy(items', b', w, k))
      && (HeldRunning(items, b, w, k) ==> k in b'.closed || HeldRunning(items', b', w, k))
  }

  /** Only tickets of submissions that were queued or running, or new ones, are held or closed. */
  ghost predicate NoOthers(items: Items, b: Ledger, items': Items, b': Ledger) {
    && (forall k | k in b'.closed :: k in b.closed || k >= b.issued || Held(items, b, k))
    && (forall k: Ticket | Held(items', b', k) :: k >= b.issued || Held(items, b, k))
  }

  /** What a flusher waits for is never changed. */
  ghost predicate TargetsStay(b: Ledger, b': Ledger) {
    forall f | f in b.targets :: f in b'.targets && b'.targets[f] == b.targets[f]
  }

  ghost predicate BookOn(items: Items, b: Ledger, items': Items, b': Ledger) {
    && b.issued <= b'.issued && b.closed <= b'.closed && TargetsStay(b, b')
    && TicketsStay(items, b, items', b') && NoOthers(items, b, items', b')
  }

  /** A new flusher waits for what is queued and running of its item as it is queued itself. */
  ghost predicate FlushNew(b: Ledger, items': Items, b': Ledger) {
    forall f | f in b'.targets && f !in b.targets :: FlushOf(f, items', b')
  }

  ghost predicate FlushOf(f: Fid, items: Items, b: Ledger)
    requires f in b.targets
  {
    exists w :: w in items && forall k: Ticket :: k in b.targets[f] <==> HeldBy(items, b, w, k)
  }

  lemma {:induction false} BookOnOn(items: Items, b: Ledger, items': Items, b': Ledger, items'': Items, b'': Ledger)
    requires BookOn(items, b, items', b') && BookOn(items', b', items'', b'')
    ensures BookOn(items, b, items'', b'')
  {
    StaysOn(items, b, items', b', items'', b'');
    NoOthersOn(items, b, items', b', items'', b'');
  }

  lemma {:induction false} StaysOn(items: Items, b: Ledger, items': Items, b': Ledger, items'': Items, b'': Ledger)
    requires TicketsStay(items, b, items', b') && TicketsStay(items', b', items'', b'') && b'.closed <= b''.closed
    ensures TicketsStay(items, b, items'', b'')
  {
    hide HeldQueued, HeldRunning;
  }

  lemma {:induction false} NoOthersOn(items: Items, b: Ledger, items': Items, b': Ledger, items'': Items, b'': Ledger)
    requires NoOthers(items, b, items', b') && NoOthers(items', b', items'', b'') && b.issued <= b'.issued
    ensures NoOthers(items, b, items'', b'')
  {
    hide Held;
  }

  /** Nothing changes as to what is queued and running. */
  lemma {:induction false} BookSame(items: Items, items': Items, b: Ledger)
    requires forall w | w in items :: w in items' && items'[w].queued == items[w].queued && items'[w].running == items[w].running
    requires forall w | w in items' && w !in items :: !items'[w].queued && !items'[w].running
    ensures BookOn(items, b, items', b) && FlushNew(b, items', b)
  {
    HeldSame(items, b, items', b);
  }

  lemma {:induction false} HeldSame(items: Items, b: Ledger, items': Items, b': Ledger)
    requires forall w: Wid, k: Ticket :: HeldBy(items', b', w, k) ==> HeldBy(items, b, w, k) || k >= b.issued
    ensures forall k: Ticket | Held(items', b', k) :: k >= b.issued || Held(items, b, k)
  {
    hide HeldBy;
  }

  lemma {:induction false} BookSubmit(items: Items, b: Ledger, w: Wid, q: Qid)
    requires w in items && !items[w].queued
    ensures BookOn(items, b, items[w := items[w].(queued := true, queue := Some(q))], Submitted(b, w))
    ensures Submitted(b, w).targets == b.targets
  {
    HeldSame(items, b, items[w := items[w].(queued := true, queue := Some(q))], Submitted(b, w));
  }

  lemma {:induction false} BookFlush(items: Items, b: Ledger, w: Wid, f: Fid)
    requires w in items && f !in b.targets
    ensures var b' := b.(targets := b.targets[f := Targets(items[w], w, b)]);
      BookOn(items, b, items, b') && FlushNew(b, items, b')
  {
    var b' := b.(targets := b.targets[f := Targets(items[w], w, b)]);
    HeldSame(items, b, items, b');
    assert forall k: Ticket :: k in b'.targets[f] <==> HeldBy(items, b', w, k);
  }

  lemma {:induction false} BookCancel(items: Items, b: Ledger, w: Wid)
    requires w in items && items[w].queued && w in b.queued
    ensures BookOn(items, b, items[w := CancelledItem(items[w])], Closed(b, b.queued[w]))
    ensures Closed(b, b.queued[w]).targets == b.targets
  {
    HeldSame(items, b, items[w := CancelledItem(items[w])], Closed(b, b.queued[w]));
    assert HeldBy(items, b, w, b.queued[w]);
  }

  lemma {:induction false} BookTake(items: Items, b: Ledger, w: Wid)
    requires w in items && items[w].queued && !items[w].running && w in b.queued
    ensures BookOn(items, b, items[w := Taken(items[w])], Started(b, w))
    ensures Started(b, w).targets == b.targets
  {
    HeldSame(items, b, items[w := Taken(items[w])], Started(b, w));
  }

  lemma {:induction false} BookFinish(items: Items, b: Ledger, w: Wid)
    requires w in items && items[w].running && w in b.running
    ensures BookOn(items, b, items[w := items[w].(running := false, canceling := false)], Closed(b, b.running[w]))
    ensures Closed(b, b.running[w]).targets == b.targets
  {
    HeldSame(items, b, items[w := items[w].(running := false, canceling := false)], Closed(b, b.running[w]));
    assert HeldBy(items, b, w, b.running[w]);
  }

  lemma {:induction false} FlushNewSame(b: Ledger, here: Ledger, items': Items, b': Ledger)
    requires here.targets == b.targets && FlushNew(here, items', b')
    ensures FlushNew(b, items', b')
  {
  }

  lemma {:induction false} NoNewFlush(b: Ledger, items': Items, b': Ledger)
    requires b'.targets == b.targets
    ensures FlushNew(b, items', b')
  {
  }

  // Cancellers.

  ghost predicate PendingId(cancels: seq<Canceller>, c: Cid) {
    exists i :: 0 <= i < |cancels| && cancels[i].id == c
  }

  /** Every canceller there ever was is pending or released. */
  ghost predicate Tally(next: Cid, cancels: seq<Canceller>, released: set<Cid>) {
    forall c: Cid :: c < next <==> c in released || PendingId(cancels, c)
  }

  lemma {:induction false} TallyAppend(next: Cid, cancels: seq<Canceller>, released: set<Cid>, w: Wid)
    requires Tally(next, cancels, released)
    ensures Tally(next + 1, cancels + [Canceller(next, w)], released)
  {
    var more := cancels + [Canceller(next, w)];
    forall c: Cid ensures PendingId(more, c) <==> PendingId(cancels, c) || c == next {
      if PendingId(cancels, c) {
        var i :| 0 <= i < |cancels| && cancels[i].id == c;
        assert more[i].id == c;
      }
      assert more[|cancels|].id == next;
    }
  }

  lemma {:induction false} TallyOthers(next: Cid, cancels: seq<Canceller>, released: set<Cid>, w: Wid)
    requires Tally(next, cancels, released)
    ensures Tally(next, Others(cancels, w), released + Ids(cancels, w))
  {
    var rest, ids := Others(cancels, w), Ids(cancels, w);
    forall c: Cid ensures c in released + ids || PendingId(rest, c) <==> c in released || PendingId(cancels, c) {
      if PendingId(cancels, c) {
        var i :| 0 <= i < |cancels| && cancels[i].id == c;
        if cancels[i].work != w {
          assert cancels[i] in rest;
          var j :| 0 <= j < |rest| && rest[j] == cancels[i];
        }
      }
      if PendingId(rest, c) {
        var i :| 0 <= i < |rest| && rest[i].id == c;
        assert rest[i] in cancels;
        var j :| 0 <= j < |cancels| && cancels[j] == rest[i];
      }
      if c in ids {
        var d :| d in cancels && d.work == w && d.id == c;
        var j :| 0 <= j < |cancels| && cancels[j] == d;
      }
    }
  }

  /** The list grows at its end, or loses all cancellers of one item; the others keep their order. */
  ghost predicate InLine(cancels: seq<Canceller>, cancels': seq<Canceller>) {
    || cancels' == cancels
    || (|cancels'| == |cancels| + 1 && cancels'[..|cancels|] == cancels)
    || exists w :: cancels' == Others(cancels, w)
  }

  /** A canceller that leaves the list is released, for the first time, and its item is then neither
      running nor queued nor canceling; nobody else is released. */
  ghost predicate CancelsOn(
    cancels: seq<Canceller>, released: set<Cid>, items': Items, cancels': seq<Canceller>, released': set<Cid>)
  {
    && released <= released' && InLine(cancels, cancels')
    && (forall c | c in cancels :: c in cancels' || Let(c, released, items', released'))
    && (forall i | i in released' && i !in released :: PendingId(cancels, i))
  }

  ghost predicate Let(c: Canceller, released: set<Cid>, items': Items, released': set<Cid>) {
    && c.id in released' && c.id !in released
    && c.work in items' && !items'[c.work].running && !items'[c.work].queued && !items'[c.work].canceling
  }

  lemma {:induction false} CancelsSame(cancels: seq<Canceller>, released: set<Cid>, items': Items)
    ensures CancelsOn(cancels, released, items', cancels, released)
  {
  }

  lemma {:induction false} CancelsGrow(cancels: seq<Canceller>, released: set<Cid>, items': Items, c: Canceller)
    ensures CancelsOn(cancels, released, items', cancels + [c], released)
  {
    forall d | d in cancels ensures d in cancels + [c] { }
  }

  lemma {:induction false} CancelsLet(items: Items, cancels: seq<Canceller>, released: set<Cid>, items': Items, w: Wid)
    requires CancelsOk(items, cancels, released) && w in items'
    requires Ids(cancels, w) != {} ==> !items'[w].running && !items'[w].queued && !items'[w].canceling
    ensures CancelsOn(cancels, released, items', Others(cancels, w), released + Ids(cancels, w))
  {
    var rest, ids := Others(cancels, w), Ids(cancels, w);
    forall c | c in cancels ensures c in rest || Let(c, released, items', released + ids) {
      var i :| 0 <= i < |cancels| && cancels[i] == c;
      assert c.work == w ==> c.id in ids;
    }
    forall i | i in released + ids && i !in released ensures PendingId(cancels, i) {
      var c :| c in cancels && c.work == w && c.id == i;
      var j :| 0 <= j < |cancels| && cancels[j] == c;
    }
  }

  datatype Snapshot = Snapshot(
    items: Items, queues: Queues, book: Ledger, cancels: seq<Canceller>, released: set<Cid>, flushed: set<Fid>)

  /** What every step keeps of the past. */
  ghost predicate Follows(a: Snapshot, b: Snapshot) {
    && BookOn(a.items, a.book, b.items, b.book) && FlushNew(a.book, b.items, b.book)
    && CancelsOn(a.cancels, a.released, b.items, b.cancels, b.released)
    && a.flushed <= b.flushed
  }

  lemma {:induction false} FlusherGated(
    queues: Queues, mid: Queues, queues': Queues, q: Qid, w: Wid, queued: bool, f: Fid, at: nat)
    requires Gated(queues, None, mid) && q in mid && q in queues' && queues' == mid[q := queues'[q]]
    requires FlusherIn(mid[q], queues'[q], w, queued, f, at)
    ensures Gated(queues, None, queues')
  {
    hide Gated;
    InsertMembers(mid[q].pending, at, Flush(f));
    GatedLess(queues, None, mid, queues');
  }

  /** The queue, if any, whose own thread makes the call. */
  function Caller(s: Step): Option<Qid> {
    match s
    case Submit(_, _, caller) => caller
    case Schedule(_, _, _, caller) => caller
    case Reschedule(_, _, _, caller) => caller
    case _ => None
  }

  /** What each step is for: the change it makes if its caller can take it at all. */
  ghost predicate Took(s: Step, a: Snapshot, b: Snapshot) {
    match s
    case StartQueue(q) => q in b.queues && (q in a.queues ==> b.queues == a.queues)
    case Init(w) => w in b.items && (w in a.items ==> b.items == a.items)
    case FlushItem(w) => w in a.items ==> b.items == a.items && Flushing(a, b, w)
    case FlushDelayable(w, _) => w in a.items && Busy(a.items[w]) ==> w in b.items && !b.items[w].delayed && Flushing(a, b, w)
    case Cancel(w) => w in a.items ==> Called(a, b, w)
    case CancelSync(w) =>
      w in a.items ==> Called(a, b, w) && (a.items[w].running ==> exists c :: b.cancels == a.cancels + [Canceller(c, w)])
    case Turn(q) => q in a.queues ==> q in b.queues && Turned(a, b, a.queues[q], b.queues[q])
    case Drain(q, plug, waiter) => q in a.queues ==> q in b.queues && Draining(a.queues[q], plug, waiter, b.queues[q])
    case Unplug(q) => q in a.queues ==> q in b.queues && !b.queues[q].plugged
    case _ => Lodged(s, a, b)
  }

  /** The steps that submit, now or later. */
  ghost predicate Lodged(s: Step, a: Snapshot, b: Snapshot) {
    match s
    case Submit(w, q, caller) => CanLodge(a, w, q) ==> Came(Submission(a.items, a.queues, w, q, caller), b)
    case Schedule(w, q, now, caller) =>
      CanLodge(a, w, q) ==>
        var it := a.items[w];
        if it.queued || it.canceling || it.delayed then b.items == a.items && b.queues == a.queues
        else if now then Came(Submission(a.items, a.queues, w, q, caller), b)
        else b.items == a.items[w := it.(delayed := true, delayQueue := q)] && b.queues == a.queues
    case Reschedule(w, q, now, caller) =>
      CanLodge(a, w, q) ==>
        var it := a.items[w];
        if now then Came(Submission(a.items[w := it.(delayed := false)], a.queues, w, q, caller), b)
        else b.items == a.items[w := it.(delayed := true, delayQueue := q)] && b.queues == a.queues
    case DelayOver(w) =>
      w in a.items && a.items[w].delayed && CanLodge(a, w, a.items[w].delayQueue) ==>
        var it := a.items[w];
        Came(Submission(a.items[w := it.(delayed := false)], a.queues, w, it.delayQueue, None), b)
    case _ => true
  }

  ghost predicate CanLodge(a: Snapshot, w: Wid, q: Option<Qid>) {
    w in a.items && Housed(a.items[w], a.queues) && (q.Some? ==> q.value in a.queues)
  }

  ghost predicate Came(o: Outcome, b: Snapshot) {
    b.items == o.items && b.queues == o.queues
  }

  /** A flusher of its own for the caller, if there is anything to wait for. */
  ghost predicate Flushing(a: Snapshot, b: Snapshot, w: Wid) {
    w in b.items && (b.items[w].queued || b.items[w].running) ==> exists f :: NewFlusher(a, b, w, f)
  }

  ghost predicate NewFlusher(a: Snapshot, b: Snapshot, w: Wid, f: Fid)
    requires w in b.items
  {
    f !in a.book.targets && f in b.book.targets && b.book.targets[f] == Targets(b.items[w], w, b.book)
  }

  /** The item is neither queued nor delayed any more, and is canceling while it runs. */
  ghost predicate Called(a: Snapshot, b: Snapshot, w: Wid)
    requires w in a.items
  {
    && w in b.items && !b.items[w].queued && !b.items[w].delayed && b.items[w].running == a.items[w].running
    && (b.items[w].canceling <==> a.items[w].running) && b.queues == Unqueued(a.items, a.queues, w)
  }

  /** The queue's thread takes the head of its list, goes idle, or ends what it ran. */
  ghost predicate Turned(a: Snapshot, b: Snapshot, was: Queue, now: Queue) {
    if was.running == None then
      if was.pending == [] then now.running == None && !now.drain && now.pending == [] && (was.drain ==> now.drainq == [])
      else now.running == Some(was.pending[0]) && now.pending == was.pending[1..]
    else
      && now.running == None && now.pending == was.pending
      && match was.running.value
         case Work(w) => w in b.items && !b.items[w].running && !b.items[w].canceling
         case Flush(f) => f in b.flushed
  }

  /** The caller waits, unless the queue is at rest and is not to be plugged. */
  ghost predicate Draining(was: Queue, plug: bool, waiter: nat, now: Queue) {
    if was.busy || was.drain || plug || was.pending != [] then
      now == was.(drain := true, plugged := was.plugged || plug, drainq := was.drainq + [waiter])
    else now == was
  }

  class WorkSystem {
    var items: Items
    var queues: Queues
    /** pending_cancels, and the cancellers whose semaphore has been given. */
    var cancels: seq<Canceller>
    var released: set<Cid>
    /** The flushers whose semaphore has been given. */
    var flushed: set<Fid>
    /** Every flush and every synchronous cancellation brings an object of its own. */
    var nextFlusher: Fid
    var nextCanceller: Cid
    ghost var book: Ledger

    ghost predicate Valid()
      reads this
    {
      && Inv(items, queues, book)
      && CancelsOk(items, cancels, released)
      && Fresh(nextFlusher, nextCanceller, book.targets, cancels, released)
      && Given(flushed, book)
      && Tally(nextCanceller, cancels, released)
    }

    constructor ()
      ensures Valid() && items == map[] && queues == map[] && cancels == []
    {
      items, queues, cancels, released, flushed := map[], map[], [], {}, {};
      nextFlusher, nextCanceller := 0, 0;
      book := Ledger(0, map[], map[], map[], {});
    }

    /** queue_submit_locked(): `caller` is the queue, if any, whose thread makes the call. */
    method QueueSubmit(q: Option<Qid>, w: Wid, caller: Option<Qid>) returns (code: int)
      requires q.Some? ==> q.value in queues
      modifies this`queues
      ensures code == if q == None then -EINVAL
                      else if !old(queues[q.value]).started then -ENODEV
                      else if !Accepts(old(queues[q.value]), caller == q) then -EBUSY else 1
      ensures q.Some? ==>
        var dq := old(queues[q.value]);
        && (code == -19 <==> !dq.started)
        && (code == -16 <==> dq.started && ((dq.drain && caller != q) || (dq.plugged && !dq.drain)))
      ensures queues == if code < 0 then old(queues)
        else old(queues)[q.value := old(queues[q.value]).(pending := old(queues[q.value]).pending + [Work(w)])]
    {
      if q == None { return -EINVAL; }
      var wq := queues[q.value];
      var chained := caller == q;
      if !wq.started {
        code := -ENODEV;
      } else if wq.drain && !chained {
        code := -EBUSY;
      } else if wq.plugged && !wq.drain {
        code := -EBUSY;
      } else {
        queues := queues[q.value := wq.(pending := wq.pending + [Work(w)])];
        code := 1;
      }
    }

    /** submit_to_queue_locked() */
    method Submit(w: Wid, q: Option<Qid>, caller: Option<Qid>) returns (code: int)
      requires Valid() && w in items && (q.Some? ==> q.value in queues)
      modifies this`items, this`queues, this`book
      ensures Valid()
      ensures Housed(old(items[w]), old(queues)) && Outcome(code, items, queues) == Submission(old(items), old(queues), w, q, caller)
      ensures book == if code > 0 then Submitted(old(book), w) else old(book)
      ensures items.Keys == old(items).Keys
      ensures BookOn(old(items), old(book), items, book) && book.targets == old(book.targets)
      ensures Gated(old(queues), caller, queues)
    {
      hide Inv, Submitted, BookOn, Gated;
      BookSame(items, items, book);
      GatedSame(queues, caller);
      var it := items[w];
      HasHouse(w);
      if it.canceling { return -EBUSY; }
      if it.queued { return 0; }
      code := 1;
      var dest := if q == None then it.queue else q;
      if it.running {
        dest := it.queue;
        code := 2;
      }
      var rc := QueueSubmit(dest, w, caller);
      if rc < 0 { return rc; }
      SubmitKeeps(items, old(queues), book, w, dest.value);
      BookSubmit(items, book, w, dest.value);
      SubmissionGated(items, old(queues), w, q, caller);
      items := items[w := it.(queued := true, queue := dest)];
      book := Submitted(book, w);
    }

    lemma {:induction false} HasHouse(w: Wid)
      requires Inv(items, queues, book) && w in items
      ensures Housed(items[w], queues) && ItemOk(items[w])
    {
    }

    /** work_flush_locked() with queue_flusher_locked(): the flusher goes right behind the queued
        item, or to the front of the list if the item is only running. */
    method FlushItem(w: Wid) returns (wait: bool, f: Fid, ghost at: nat)
      requires Valid() && w in items
      modifies this`queues, this`book, this`nextFlusher
      ensures Valid() && (wait <==> items[w].queued || items[w].running)
      ensures !wait ==> queues == old(queues) && book == old(book)
      ensures wait ==> f !in old(book).targets && book == old(book).(targets := old(book).targets[f := Targets(items[w], w, old(book))])
      ensures wait ==>
        && items[w].queue.Some? && items[w].queue.value in old(queues) && items[w].queue.value in queues
        && FlusherIn(old(queues)[items[w].queue.value], queues[items[w].queue.value], w, items[w].queued, f, at)
        && queues == old(queues)[items[w].queue.value := queues[items[w].queue.value]]
      ensures BookOn(items, old(book), items, book) && FlushNew(old(book), items, book)
      ensures Gated(old(queues), None, queues)
    {
      hide Inv, BookOn, FlushNew, Gated;
      BookSame(items, items, book);
      GatedSame(queues, None);
      wait, f, at := items[w].queued || items[w].running, nextFlusher, 0;
      if !wait { return; }
      HasHouse(w);
      var q := items[w].queue.value;
      QueuedHere(w, q);
      var pending := queues[q].pending;
      var i := 0;
      while i < |pending| && pending[i] != Work(w)
        modifies {}
        invariant i <= |pending| && forall j | 0 <= j < i :: pending[j] != Work(w)
      {
        i := i + 1;
      }
      var place := if i < |pending| then i + 1 else 0;
      at := place;
      assert Work(w) in pending <==> i < |pending|;
      FlushKeeps(items, queues, book, w, q, f, place);
      BookFlush(items, book, w, f);
      InsertMembers(pending, place, Flush(f));
      GatedLess(queues, None, queues, queues[q := queues[q].(pending := pending[..place] + [Flush(f)] + pending[place..])]);
      queues := queues[q := queues[q].(pending := pending[..place] + [Flush(f)] + pending[place..])];
      book := book.(targets := book.targets[f := Targets(items[w], w, book)]);
      nextFlusher := nextFlusher + 1;
    }

    lemma {:induction false} QueuedHere(w: Wid, q: Qid)
      requires Inv(items, queues, book) && w in items && q in queues
      ensures Work(w) in queues[q].pending <==> QueuedOn(items, w, q)
      ensures queues[q].running == Some(Work(w)) <==> RunningOn(items, w, q)
      ensures ItemOk(items[w])
    {
    }

    /** k_work_cancel() and k_work_cancel_delayable(): cancel_async_locked() after the delay has been
        called off.  The queued submission is removed; the result says whether a run goes on. */
    method Cancel(w: Wid) returns (busy: bool)
      requires Valid() && w in items
      modifies this`items, this`queues, this`book
      ensures Valid()
      ensures items == old(items)[w := CancelledItem(old(items[w]))]
      ensures
        var was, now := old(items[w]), items[w];
        && !now.queued && !now.delayed && now.running == was.running && (now.canceling <==> was.running)
        && now.queue == was.queue && now.delayQueue == was.delayQueue
      ensures busy == old(items[w]).running
      ensures if old(items[w]).queued then w in old(book).queued && book == Closed(old(book), old(book).queued[w])
              else book == old(book)
      ensures queues == Unqueued(old(items), old(queues), w)
      ensures BookOn(old(items), old(book), items, book) && book.targets == old(book.targets)
    {
      hide Inv, Closed, CancelsOk, Unqueued, Given, BookOn;
      HasHouse(w);
      ghost var it := CancelledItem(items[w]);
      if !items[w].queued { BookSame(items, items[w := it], book); }
      CancelsFrame(items, cancels, released, w, it);
      FlagsKeep(items, queues, book, w, items[w].(delayed := false));
      if !items[w].queued { FlagsKeep(items, queues, book, w, it); }
      items := items[w := items[w].(delayed := false)];
      if !items[w].canceling {
        UnqueuedFrame(old(items), queues, w, items[w]);
        QueueRemove(w);
        assert items[w := CancelledItem(items[w])] == old(items)[w := it];
      } else {
        UnqueuedNot(old(items), queues, w);
      }
      busy := Busy(items[w]);
      if busy { items := items[w := items[w].(canceling := true)]; }
      assert items == old(items)[w := it];
      if old(items[w]).queued { BookCancel(old(items), old(book), w); }
    }

    /** queue_remove_locked().  What is left of the item is then canceling exactly if it is running. */
    method QueueRemove(w: Wid)
      requires Inv(items, queues, book) && Given(flushed, book) && w in items && !items[w].delayed && !items[w].canceling
      modifies this`items, this`queues, this`book
      ensures items == old(items)[w := old(items[w]).(queued := false)] && queues == Unqueued(old(items), old(queues), w)
      ensures Given(flushed, book) && book.targets == old(book.targets)
      ensures Inv(items[w := CancelledItem(items[w])], queues, book)
      ensures if old(items[w]).queued then w in old(book).queued && book == Closed(old(book), old(book).queued[w]) else book == old(book)
    {
      hide Inv, Closed, Given;
      HasHouse(w);
      if items[w].queued {
        var q := items[w].queue.value;
        QueuedHere(w, q);
        var i := FindPending(queues[q].pending, Work(w));
        MinusAt(queues[q].pending, Work(w), i);
        CancelQueuedKeeps(items, queues, book, w, q, i);
        ClosedGiven(flushed, book, book.queued[w]);
        queues := queues[q := queues[q].(pending := queues[q].pending[..i] + queues[q].pending[i + 1..])];
        book := Closed(book, book.queued[w]);
        items := items[w := items[w].(queued := false)];
        assert items[w := CancelledItem(items[w])] == old(items)[w := CancelledItem(old(items[w]))];
      } else {
        FlagsKeep(items, queues, book, w, CancelledItem(items[w]));
        assert items == old(items)[w := old(items[w]).(queued := false)];
      }
    }

    /** k_work_cancel_sync() and k_work_cancel_delayable_sync() up to the wait for the canceller's
        semaphore. */
    method CancelSync(w: Wid) returns (pending: bool, wait: bool, c: Cid)
      requires Valid() && w in items
      modifies this`items, this`queues, this`cancels, this`book, this`nextCanceller
      ensures Valid()
      ensures var was := old(items[w]); pending <==> was.running || was.queued || was.canceling || was.delayed
      ensures wait == old(items[w]).running
      ensures items == old(items)[w := CancelledItem(old(items[w]))]
      ensures cancels == if wait then old(cancels) + [Canceller(c, w)] else old(cancels)
      ensures if old(items[w]).queued then w in old(book).queued && book == Closed(old(book), old(book).queued[w])
              else book == old(book)
      ensures queues == Unqueued(old(items), old(queues), w)
      ensures BookOn(old(items), old(book), items, book) && book.targets == old(book.targets)
      ensures CancelsOn(old(cancels), released, items, cancels, released)
    {
      hide Inv, Closed, BookOn, Tally, CancelsOn;
      HasHouse(w);
      BookSame(items, items, book);
      CancelsSame(cancels, released, items);
      pending := Busy(items[w]);
      wait, c := false, nextCanceller;
      if pending {
        var _ := Cancel(w);
        wait := items[w].canceling;
        CancelsSame(cancels, released, items);
        if wait {
          TallyAppend(nextCanceller, cancels, released, w);
          CancelsGrow(cancels, released, items, Canceller(c, w));
          cancels := cancels + [Canceller(c, w)];
          nextCanceller := nextCanceller + 1;
        }
      } else {
        assert items == old(items)[w := CancelledItem(old(items[w]))];
      }
    }

    /** finalize_cancel_locked(): every canceller of the item is released, the others keep their
        places. */
    method FinalizeCancel(w: Wid)
      requires w in items
      modifies this`items, this`cancels, this`released
      ensures items == old(items)[w := old(items[w]).(canceling := false)]
      ensures cancels == Others(old(cancels), w)
      ensures released == old(released) + Ids(old(cancels), w)
    {
      hide Ids, Others;
      items := items[w := items[w].(canceling := false)];
      var i, kept, all := 0, [], cancels;
      NoIds(w);
      while i < |all|
        invariant i <= |all| && kept == Others(all[..i], w)
        invariant all == old(cancels) && items == old(items)[w := old(items[w]).(canceling := false)]
        invariant released == old(released) + Ids(all[..i], w)
      {
        assert all[..i + 1] == all[..i] + [all[i]];
        OthersAppend(all[..i], all[i], w);
        IdsAppend(all[..i], all[i], w);
        if all[i].work == w {
          released := released + {all[i].id};
        } else {
          kept := kept + [all[i]];
        }
        i := i + 1;
      }
      assert all[..|all|] == all;
      cancels := kept;
    }

    // -------------------------------------------------------------- the queue thread

    /** The first half of the loop in work_queue_main().  With nothing pending, a draining queue is
        drained now: the waiters are released at a moment when the list is empty and nothing of
        the queue runs. */
    method TakeNext(q: Qid) returns (n: Option<Node>, drained: seq<nat>)
      requires Valid() && q in queues && queues[q].running == None
      modifies this`items, this`queues, this`book
      ensures Valid() && q in queues && queues.Keys == old(queues).Keys
      ensures n == if old(queues[q]).pending == [] then None else Some(old(queues[q]).pending[0])
      ensures queues == old(queues)[q :=
        if n.Some? then Busied(old(queues[q])) else old(queues[q]).(drain := false, drainq := if old(queues[q]).drain then [] else old(queues[q]).drainq)]
      ensures items == if n.Some? && n.value.Work? && n.value.w in old(items) then old(items)[n.value.w := Taken(old(items[n.value.w]))] else old(items)
      ensures drained == if n == None && old(queues[q]).drain then old(queues[q]).drainq else []
      ensures drained != [] ==> queues[q].pending == [] && queues[q].running == None
      ensures n.Some? && n.value.Flush? ==> n.value.f in book.targets && book.targets[n.value.f] <= book.closed
      ensures n.Some? && n.value.Work? ==> n.value.w in items && RunningOn(items, n.value.w, q)
      ensures BookOn(old(items), old(book), items, book) && book.targets == old(book.targets)
    {
      hide Inv, BookOn, Tally;
      n, drained := None, [];
      BookSame(items, items, book);
      var wq := queues[q];
      QueueFacts(q);
      if wq.pending != [] {
        n := Some(wq.pending[0]);
        queues := queues[q := wq.(busy := true, running := n, pending := wq.pending[1..])];
        match wq.pending[0] {
          case Work(w) =>
            TakeWorkKeeps(items, old(queues), book, q);
            CancelsFrame(items, cancels, released, w, Taken(items[w]));
            BookTake(items, book, w);
            book := Started(book, w);
            items := items[w := items[w].(running := true, queued := false)];
          case Flush(_) =>
            TakeFlusherKeeps(items, old(queues), book, q);
        }
      } else if wq.drain {
        drained := wq.drainq;
        queues := queues[q := wq.(drain := false, drainq := [])];
        QueueKeeps(items, old(queues), book, q, queues[q]);
      } else {
        assert queues == old(queues)[q := wq.(drain := false)];
      }
    }

    lemma {:induction false} QueueFacts(q: Qid)
      requires Valid() && q in queues
      ensures QueueOk(queues[q])
      ensures forall w | queues[q].pending != [] && queues[q].running == None && queues[q].pending[0] == Work(w) ::
        w in items && !items[w].canceling && items[w].queue == Some(q) && items[w].queued && !items[w].running
    {
      if queues[q].pending != [] && queues[q].running == None && queues[q].pending[0].Work? {
        HeadQueued(items, queues, q);
      }
    }

    /** handle_flush(): the semaphore is given, and all that the flush was to wait for is over. */
    method HandleFlush(q: Qid, f: Fid)
      requires Valid() && q in queues && queues[q].running == Some(Flush(f))
      modifies this`flushed
      ensures Valid() && flushed == old(flushed) + {f}
      ensures f in book.targets && book.targets[f] <= book.closed
    {
      assert FlushesOk(queues[q], book);
      flushed := flushed + {f};
    }

    /** The second half of the loop, after the handler of a work item has returned.  Its cancellers
        are released now, none of them for the second time, and the item is no longer running,
        queued or canceling for them. */
    method Finish(q: Qid, w: Wid)
      requires Valid() && q in queues && queues[q].running == Some(Work(w))
      modifies this`items, this`queues, this`cancels, this`released, this`book
      ensures Valid() && queues == old(queues)[q := Idle(old(queues[q]))]
      ensures w in old(items) && w in old(book).running && book == Closed(old(book), old(book).running[w])
      ensures items == old(items)[w := old(items[w]).(running := false, canceling := false)]
      ensures cancels == Others(old(cancels), w)
      ensures
        var ids := Ids(old(cancels), w);
        released == old(released) + ids && ids !! old(released) && (ids != {} ==> !items[w].queued)
      ensures BookOn(old(items), old(book), items, book) && book.targets == old(book.targets)
      ensures CancelsOn(old(cancels), old(released), items, cancels, released)
    {
      hide Inv, Closed, CancelsOk, DistinctIds, Others, Fresh, Given, BookOn, Tally, CancelsOn;
      FinishWorkKeeps(items, queues, book, q, w);
      HasHouse(w);
      ghost var it := items[w].(running := false, canceling := false);
      ghost var ids := Ids(cancels, w);
      OthersOk(items, cancels, released, w, it, ids);
      FreshOthers(nextFlusher, nextCanceller, book.targets, cancels, released, w, ids);
      ClosedGiven(flushed, book, book.running[w]);
      NoCancellers(w);
      BookFinish(items, book, w);
      TallyOthers(nextCanceller, cancels, released, w);
      CancelsLet(items, cancels, released, items[w := it], w);
      items := items[w := items[w].(running := false)];
      if items[w].canceling { FinalizeCancel(w); }
      queues := queues[q := queues[q].(busy := false, running := None)];
      book := Closed(book, book.running[w]);
      assert items == old(items)[w := it];
      assert released == old(released) + ids;
    }

    /** The same, after a flusher. */
    method FinishFlush(q: Qid, f: Fid)
      requires Valid() && q in queues && queues[q].running == Some(Flush(f))
      modifies this`queues
      ensures Valid() && queues == old(queues)[q := Idle(old(queues[q]))]
    {
      hide Inv;
      QueueFacts(q);
      queues := queues[q := queues[q].(busy := false, running := None)];
      QueueKeeps(items, old(queues), book, q, queues[q]);
    }

    lemma {:induction false} NoCancellers(w: Wid)
      requires Valid() && w in items
      ensures !items[w].canceling ==> Others(cancels, w) == cancels && Ids(cancels, w) == {}
    {
      if !items[w].canceling {
        forall c | c in cancels ensures c.work != w {
          var i :| 0 <= i < |cancels| && cancels[i] == c;
        }
        OthersAll(cancels, w);
      }
    }

    // -------------------------------------------------------------- the life of a queue

    /** k_work_queue_init() and k_work_queue_start() */
    method StartQueue(q: Qid)
      requires Valid() && q !in queues
      modifies this`queues
      ensures Valid() && queues == old(queues)[q := Queue(true, false, false, false, [], None, [])]
    {
      queues := queues[q := Queue(true, false, false, false, [], None, [])];
      NewQueueKeeps(items, old(queues), book, q, queues[q]);
    }

    /** k_work_init() and k_work_init_delayable() */
    method Init(w: Wid)
      requires Valid() && w !in items
      modifies this`items
      ensures Valid() && items == old(items)[w := Item(false, false, false, false, None, None)]
    {
      items := items[w := Item(false, false, false, false, None, None)];
      NewItemKeeps(old(items), queues, book, w, items[w]);
    }

    /** k_work_queue_drain(): the caller waits unless the queue is idle and is not to be plugged. */
    method Drain(q: Qid, plug: bool, waiter: nat) returns (wait: bool)
      requires Valid() && q in queues
      modifies this`queues
      ensures Valid()
      ensures var wq := old(queues[q]);
        && (wait <==> wq.busy || wq.drain || plug || wq.pending != [])
        && queues == if wait then old(queues)[q := wq.(drain := true, plugged := wq.plugged || plug, drainq := wq.drainq + [waiter])]
                     else old(queues)
    {
      hide Inv;
      QueueFacts(q);
      var wq := queues[q];
      wait := wq.busy || wq.drain || plug || wq.pending != [];
      if wait {
        queues := queues[q := wq.(drain := true, plugged := wq.plugged || plug, drainq := wq.drainq + [waiter])];
        QueueKeeps(items, old(queues), book, q, queues[q]);
      }
    }

    /** k_work_queue_unplug() */
    method Unplug(q: Qid) returns (code: int)
      requires Valid() && q in queues
      modifies this`queues
      ensures Valid() && code == if old(queues[q]).plugged then 0 else -EALREADY
      ensures queues == old(queues)[q := old(queues[q]).(plugged := false)]
    {
      hide Inv;
      QueueFacts(q);
      code := if queues[q].plugged then 0 else -EALREADY;
      queues := queues[q := queues[q].(plugged := false)];
      QueueKeeps(items, old(queues), book, q, queues[q]);
    }

    // -------------------------------------------------------------- delayable work

    /** schedule_for_queue_locked() with a delay. */
    method Delay(w: Wid, q: Option<Qid>)
      requires Valid() && w in items && (q.Some? ==> q.value in queues)
      modifies this`items
      ensures Valid() && items == old(items)[w := old(items[w]).(delayed := true, delayQueue := q)]
    {
      hide Inv, CancelsOk;
      HasHouse(w);
      FlagsKeep(items, queues, book, w, items[w].(delayed := true, delayQueue := q));
      CancelsFrame(items, cancels, released, w, items[w].(delayed := true, delayQueue := q));
      items := items[w := items[w].(delayed := true, delayQueue := q)];
    }

    /** k_work_schedule_for_queue(): only an item that is idle or running is scheduled. */
    method Schedule(w: Wid, q: Option<Qid>, now: bool, caller: Option<Qid>) returns (code: int)
      requires Valid() && w in items && (q.Some? ==> q.value in queues)
      modifies this`items, this`queues, this`book
      ensures Valid()
      ensures Housed(old(items[w]), old(queues))
      ensures var it := old(items[w]);
        Outcome(code, items, queues) ==
        if it.queued || it.canceling || it.delayed then Outcome(0, old(items), old(queues))
        else if now then Submission(old(items), old(queues), w, q, caller)
        else Outcome(1, old(items)[w := it.(delayed := true, delayQueue := q)], old(queues))
      ensures BookOn(old(items), old(book), items, book) && book.targets == old(book.targets)
      ensures Gated(old(queues), caller, queues)
    {
      hide Inv, CancelsOk, Accepts, Destination, Submission, BookOn, Tally, Gated;
      HasHouse(w);
      BookSame(items, items, book);
      GatedSame(queues, caller);
      var it := items[w];
      if it.queued || it.canceling || it.delayed { return 0; }
      if now {
        code := Submit(w, q, caller);
      } else {
        Delay(w, q);
        BookSame(old(items), items, book);
        code := 1;
      }
    }

    /** k_work_reschedule_for_queue(): whatever delay there was is called off first. */
    method Reschedule(w: Wid, q: Option<Qid>, now: bool, caller: Option<Qid>) returns (code: int)
      requires Valid() && w in items && (q.Some? ==> q.value in queues)
      modifies this`items, this`queues, this`book
      ensures Valid()
      ensures Housed(old(items[w]), old(queues))
      ensures
        Outcome(code, items, queues) ==
        if now then Submission(old(items)[w := old(items[w]).(delayed := false)], old(queues), w, q, caller)
        else Outcome(1, old(items)[w := old(items[w]).(delayed := true, delayQueue := q)], old(queues))
      ensures BookOn(old(items), old(book), items, book) && book.targets == old(book.targets)
      ensures Gated(old(queues), caller, queues)
    {
      hide Inv, CancelsOk, Accepts, Destination, Submission, BookOn, Tally, Gated;
      HasHouse(w);
      BookSame(items, items, book);
      GatedSame(queues, caller);
      Undelay(w);
      BookSame(old(items), items, book);
      ghost var undelayed := items;
      if now {
        code := Submit(w, q, caller);
        BookOnOn(old(items), old(book), undelayed, old(book), items, book);
      } else {
        Delay(w, q);
        BookSame(old(items), items, book);
        code := 1;
        assert items == old(items)[w := old(items[w]).(delayed := true, delayQueue := q)];
      }
    }

    /** unschedule_locked(), as to the flag. */
    method Undelay(w: Wid)
      requires Valid() && w in items
      modifies this`items
      ensures Valid() && items == old(items)[w := old(items[w]).(delayed := false)]
    {
      hide Inv, CancelsOk;
      HasHouse(w);
      FlagsKeep(items, queues, book, w, items[w].(delayed := false));
      CancelsFrame(items, cancels, released, w, items[w].(delayed := false));
      items := items[w := items[w].(delayed := false)];
    }

    /** work_timeout(): the item is submitted if it is still delayed; a refusal goes unnoticed. */
    method DelayOver(w: Wid)
      requires Valid() && w in items
      modifies this`items, this`queues, this`book
      ensures Valid() && Housed(old(items[w]), old(queues))
      ensures !old(items[w]).delayed ==> items == old(items) && queues == old(queues)
      ensures old(items[w]).delayed ==>
        var after := Submission(old(items)[w := old(items[w]).(delayed := false)], old(queues), w, old(items[w]).delayQueue, None);
        items == after.items && queues == after.queues
      ensures BookOn(old(items), old(book), items, book) && book.targets == old(book.targets)
      ensures Gated(old(queues), None, queues)
    {
      hide Inv, CancelsOk, Accepts, Destination, Submission, BookOn, Tally, Gated;
      HasHouse(w);
      BookSame(items, items, book);
      GatedSame(queues, None);
      if items[w].delayed {
        var q := items[w].delayQueue;
        Undelay(w);
        BookSame(old(items), items, book);
        ghost var undelayed := items;
        var _ := Submit(w, q, None);
        BookOnOn(old(items), old(book), undelayed, old(book), items, book);
      }
    }

    /** The delay, if any, is over: the item is submitted if its timeout could still be unlinked. */
    method CutShort(w: Wid, linked: bool)
      requires Valid() && w in items
      modifies this`items, this`queues, this`book
      ensures Valid() && w in items && !items[w].delayed && Housed(old(items[w]), old(queues))
      ensures
        var undelayed := old(items)[w := old(items[w]).(delayed := false)];
        items ==
        if !old(items[w]).delayed then old(items)
        else if linked then Submission(undelayed, old(queues), w, old(items[w]).delayQueue, None).items
        else undelayed
      ensures BookOn(old(items), old(book), items, book) && book.targets == old(book.targets)
      ensures Gated(old(queues), None, queues)
    {
      hide Inv, CancelsOk, Accepts, Destination, Submission, Given, Fresh, BookOn, Tally, Gated;
      HasHouse(w);
      BookSame(items, items, book);
      GatedSame(queues, None);
      if items[w].delayed {
        var q := items[w].delayQueue;
        Undelay(w);
        BookSame(old(items), items, book);
        if linked {
          ghost var undelayed := items;
          StaysUndelayed(items, queues, w, q);
          var _ := Submit(w, q, None);
          BookOnOn(old(items), old(book), undelayed, old(book), items, book);
        }
      }
    }

    /** k_work_flush_delayable(): a delay that could still be called off is cut short, then the item
        is flushed. */
    method FlushDelayable(w: Wid, linked: bool) returns (wait: bool, f: Fid)
      requires Valid() && w in items
      modifies this`items, this`queues, this`book, this`nextFlusher
      ensures Valid() && w in items && (wait <==> items[w].queued || items[w].running)
      ensures Housed(old(items[w]), old(queues))
      ensures
        var undelayed := old(items)[w := old(items[w]).(delayed := false)];
        items ==
        if !old(items[w]).delayed then old(items)
        else if linked then Submission(undelayed, old(queues), w, old(items[w]).delayQueue, None).items
        else undelayed
      ensures !Busy(old(items[w])) ==> queues == old(queues)
      ensures !items[w].delayed
      ensures wait ==> f !in old(book).targets && f in book.targets && book.targets[f] == Targets(items[w], w, book)
      ensures BookOn(old(items), old(book), items, book) && FlushNew(old(book), items, book)
      ensures Gated(old(queues), None, queues)
    {
      hide Inv, CancelsOk, Accepts, Destination, Submission, Given, Fresh, BookOn, FlushNew, Tally, Gated;
      HasHouse(w);
      BookSame(items, items, book);
      GatedSame(queues, None);
      if !Busy(items[w]) { return false, 0; }
      CutShort(w, linked);
      ghost var here, lists, at := book, queues, 0;
      wait, f, at := FlushItem(w);
      if wait { FlusherGated(old(queues), lists, queues, items[w].queue.value, w, items[w].queued, f, at); }
      BookOnOn(old(items), old(book), items, here, items, book);
      FlushNewSame(old(book), here, items, book);
    }

    // -------------------------------------------------------------- whole runs

    ghost function View(): Snapshot
      reads this
    {
      Snapshot(items, queues, book, cancels, released, flushed)
    }

    /** One step.  Tickets stay with their submissions until they are closed, only tickets of queued or
        running submissions are closed, no flusher's targets change, and cancellers leave the list only
        by being released when their item is at rest. */
    method Perform(s: Step)
      requires Valid()
      modifies this
      ensures Valid() && Follows(old(View()), View()) && Gated(old(queues), Caller(s), queues) && Took(s, old(View()), View())
    {
      hide Inv, CancelsOk, Accepts, Destination, Submission, Fresh, Given, Others, Submitted, BookOn, FlushNew, CancelsOn, Tally;
      hide Gated, Unqueued, Lodged, Turned, Housed, Flushing, Draining;
      BookSame(items, items, book);
      CancelsSame(cancels, released, items);
      GatedSame(queues, Caller(s));
      match s {
        case StartQueue(_) | Drain(_, _, _) | Unplug(_) => PerformQueue(s);
        case Init(w) => if w !in items { Init(w); BookSame(old(items), items, book); }
        case FlushItem(w) => if w in items { PerformFlush(s); }
        case FlushDelayable(w, _) => if w in items { PerformFlush(s); }
        case Cancel(w) => if w in items { var _ := Cancel(w); NoNewFlush(old(book), items, book); UnqueuedGated(old(items), old(queues), w); }
        case CancelSync(w) =>
          if w in items {
            var _, _, c := CancelSync(w);
            NoNewFlush(old(book), items, book);
            UnqueuedGated(old(items), old(queues), w);
            return;
          }
        case Turn(q) => if q in queues { TakeTurn(q); return; }
        case _ => PerformSubmit(s);
      }
      CancelsSame(cancels, released, items);
    }

    /** The steps in the life of a queue. */
    method PerformQueue(s: Step)
      requires Valid() && (s.StartQueue? || s.Drain? || s.Unplug?)
      modifies this`queues
      ensures Valid() && Gated(old(queues), None, queues) && Took(s, old(View()), View())
    {
      hide Inv, CancelsOk, Fresh, Given, Tally, Gated;
      match s {
        case StartQueue(q) => if q !in queues { StartQueue(q); }
        case Drain(q, plug, waiter) => if q in queues { var _ := Drain(q, plug, waiter); }
        case Unplug(q) => if q in queues { var _ := Unplug(q); }
      }
      GatedSame(old(queues), None);
      GatedLess(old(queues), None, old(queues), queues);
    }

    /** The steps that flush an item. */
    method PerformFlush(s: Step)
      requires Valid() && (s.FlushItem? || s.FlushDelayable?) && s.w in items
      modifies this`items, this`queues, this`book, this`nextFlusher
      ensures Valid() && BookOn(old(items), old(book), items, book) && FlushNew(old(book), items, book)
      ensures Gated(old(queues), None, queues) && Took(s, old(View()), View())
    {
      hide Inv, CancelsOk, Submission, Fresh, Given, Others, BookOn, FlushNew, CancelsOn, Tally, Gated, Housed;
      ghost var before := View();
      match s {
        case FlushItem(w) =>
          var wait, f, _ := FlushItem(w);
          assert wait ==> NewFlusher(before, View(), w, f);
        case FlushDelayable(w, linked) =>
          var wait, f := FlushDelayable(w, linked);
          assert wait ==> NewFlusher(before, View(), w, f);
      }
    }

    /** The steps that submit an item, now or later. */
    method PerformSubmit(s: Step)
      requires Valid() && (s.Submit? || s.Schedule? || s.Reschedule? || s.DelayOver?)
      modifies this`items, this`queues, this`book
      ensures Valid() && BookOn(old(items), old(book), items, book) && FlushNew(old(book), items, book)
      ensures Gated(old(queues), Caller(s), queues) && Lodged(s, old(View()), View())
    {
      hide Inv, CancelsOk, Accepts, Destination, Submission, Fresh, Given, Submitted, BookOn, FlushNew, Tally, Gated;
      BookSame(items, items, book);
      GatedSame(queues, Caller(s));
      match s {
        case Submit(w, q, caller) =>
          if w in items && (q == None || q.value in queues) { var _ := Submit(w, q, caller); NoNewFlush(old(book), items, book); }
        case Schedule(w, q, now, caller) =>
          if w in items && (q == None || q.value in queues) { var _ := Schedule(w, q, now, caller); NoNewFlush(old(book), items, book); }
        case Reschedule(w, q, now, caller) =>
          if w in items && (q == None || q.value in queues) { var _ := Reschedule(w, q, now, caller); NoNewFlush(old(book), items, book); }
        case DelayOver(w) => if w in items { DelayOver(w); NoNewFlush(old(book), items, book); }
      }
    }

    /** The queue thread goes on: it looks for work, or its handler returns. */
    method TakeTurn(q: Qid)
      requires Valid() && q in queues
      modifies this
      ensures Valid() && Follows(old(View()), View()) && Gated(old(queues), None, queues)
      ensures q in queues && Turned(old(View()), View(), old(queues[q]), queues[q])
    {
      hide Inv, CancelsOk, Fresh, Given, Others, BookOn, FlushNew, CancelsOn, Tally, Gated;
      BookSame(items, items, book);
      GatedSame(queues, None);
      match queues[q].running {
        case None =>
          var _, _ := TakeNext(q);
          CancelsSame(cancels, released, items);
          NoNewFlush(old(book), items, book);
        case Some(Work(w)) =>
          Finish(q, w);
          NoNewFlush(old(book), items, book);
        case Some(Flush(f)) =>
          CancelsSame(cancels, released, items);
          HandleFlush(q, f);
          FinishFlush(q, f);
      }
      GatedLess(old(queues), None, old(queues), queues);
    }

    /** Any run; `trace` holds the state before the first step and after each.  A flusher has been given its
        semaphore only if all that was queued and running of its item when it was queued is over, and
        no closed submission is still queued or running.  Every canceller there ever was is pending
        or released, and never both. */
    method Run(steps: seq<Step>) returns (ghost trace: seq<Snapshot>)
      requires Valid()
      modifies this
      ensures Valid()
      ensures |trace| == |steps| + 1 && trace[0] == old(View()) && trace[|steps|] == View()
      ensures forall i | 0 <= i < |steps| ::
        && Follows(trace[i], trace[i + 1]) && Gated(trace[i].queues, Caller(steps[i]), trace[i + 1].queues)
        && Took(steps[i], trace[i], trace[i + 1])
      ensures BookOn(old(items), old(book), items, book)
      ensures forall f | f in flushed :: f in book.targets && book.targets[f] <= book.closed
      ensures forall k | k in book.closed :: !Held(items, book, k)
      ensures forall c: Cid | c < nextCanceller :: (c in released) != PendingId(cancels, c)
    {
      hide Inv, CancelsOk, Fresh, Given, BookOn, FlushNew, CancelsOn, Tally, Gated, Took;
      trace := [View()];
      BookSame(items, items, book);
      for i := 0 to |steps|
        invariant Valid() && BookOn(old(items), old(book), items, book)
        invariant |trace| == i + 1 && trace[0] == old(View()) && trace[i] == View()
        invariant forall j | 0 <= j < i ::
          && Follows(trace[j], trace[j + 1]) && Gated(trace[j].queues, Caller(steps[j]), trace[j + 1].queues)
          && Took(steps[j], trace[j], trace[j + 1])
      {
        ghost var here := View();
        Perform(steps[i]);
        BookOnOn(old(items), old(book), here.items, here.book, items, book);
        trace := trace + [View()];
      }
      Promises();
    }

    lemma {:induction false} Promises()
      requires Valid()
      ensures forall f | f in flushed :: f in book.targets && book.targets[f] <= book.closed
      ensures forall k | k in book.closed :: !Held(items, book, k)
      ensures forall c: Cid | c < nextCanceller :: (c in released) != PendingId(cancels, c)
    {
      hide Linked, FlushesOk, QueueOk;
      forall k | k in book.closed ensures !Held(items, book, k) {
        forall w ensures !HeldBy(items, book, w, k) {
          assert w in items && items[w].queued ==> Open(book.queued[w], book);
          assert w in items && items[w].running ==> Open(book.running[w], book);
        }
      }
    }
  }

  lemma {:induction false} OthersAll(cancels: seq<Canceller>, w: Wid)
    requires forall c | c in cancels :: c.work != w
    ensures Others(cancels, w) == cancels
    decreases cancels
  {
    if cancels != [] { OthersAll(cancels[1..], w); }
  }

  lemma {:induction false} NewQueueKeeps(items: Items, queues: Queues, b: Ledger, q: Qid, wq: Queue)
    requires Inv(items, queues, b) && q !in queues && wq.pending == [] && wq.running == None && QueueOk(wq)
    ensures Inv(items, queues[q := wq], b)
  {
    hide Ticketed;
    var queues' := queues[q := wq];
    forall p, u | p in queues'
      ensures Work(u) in queues'[p].pending <==> QueuedOn(items, u, p)
      ensures queues'[p].running == Some(Work(u)) <==> RunningOn(items, u, p)
    {
      assert u in items ==> Housed(items[u], queues);
    }
    forall p | p in queues' ensures QueueOk(queues'[p]) && FlushesOk(queues'[p], b) {
      assert p != q ==> QueueOk(queues[p]) && FlushesOk(queues[p], b);
    }
  }

  lemma {:induction false} NewItemKeeps(items: Items, queues: Queues, b: Ledger, w: Wid, it: Item)
    requires Inv(items, queues, b) && w !in items && it == Item(false, false, false, false, None, None)
    ensures Inv(items[w := it], queues, b)
  {
    hide FlushesOk, QueueOk;
    var items' := items[w := it];
    forall p, u | p in queues
      ensures QueuedOn(items', u, p) <==> QueuedOn(items, u, p)
      ensures RunningOn(items', u, p) <==> RunningOn(items, u, p)
    {
    }
  }

  lemma {:induction false} CancelsFrame(items: Items, cancels: seq<Canceller>, released: set<Cid>, w: Wid, it: Item)
    requires CancelsOk(items, cancels, released) && w in items && (items[w].canceling ==> it.canceling)
    ensures CancelsOk(items[w := it], cancels, released)
  {
  }

  datatype Step =
    | StartQueue(q: Qid) | Init(w: Wid) | Submit(w: Wid, on: Option<Qid>, caller: Option<Qid>)
    | FlushItem(w: Wid) | FlushDelayable(w: Wid, linked: bool) | Cancel(w: Wid) | CancelSync(w: Wid)
    | Turn(q: Qid) | Drain(q: Qid, plug: bool, waiter: nat) | Unplug(q: Qid)
    | Schedule(w: Wid, on: Option<Qid>, now: bool, caller: Option<Qid>)
    | Reschedule(w: Wid, on: Option<Qid>, now: bool, caller: Option<Qid>) | DelayOver(w: Wid)

  /** What the flags say in every reachable state. */
  lemma {:induction false} FlagsTellAll(items: Items, queues: Queues, b: Ledger, w: Wid)
    requires Inv(items, queues, b) && w in items
    ensures items[w].queued <==> exists q :: q in queues && items[w].queue == Some(q) && Work(w) in queues[q].pending
    ensures items[w].running <==> exists q :: q in queues && items[w].queue == Some(q) && queues[q].running == Some(Work(w))
    ensures items[w].canceling ==> items[w].running && !items[w].queued
  {
    hide Ticketed, FlushesOk, QueueOk, Distinct;
    assert ItemOk(items[w]) && Housed(items[w], queues);
    if items[w].queued { assert QueuedOn(items, w, items[w].queue.value); }
    if items[w].running { assert RunningOn(items, w, items[w].queue.value); }
    assert forall q | q in queues && Work(w) in queues[q].pending :: QueuedOn(items, w, q);
    assert forall q | q in queues && queues[q].running == Some(Work(w)) :: RunningOn(items, w, q);
  }

  /** An item is on one list at most, once, is run by one queue at most, and if it is both run and
      listed, then by the same queue. */
  lemma {:induction false} OnePlace(items: Items, queues: Queues, b: Ledger, p: Qid, q: Qid, w: Wid)
    requires Inv(items, queues, b) && p in queues && q in queues
    requires Work(w) in queues[p].pending || queues[p].running == Some(Work(w))
    requires Work(w) in queues[q].pending || queues[q].running == Some(Work(w))
    ensures p == q
    ensures forall i, j | 0 <= i < j < |queues[q].pending| :: queues[q].pending[i] != queues[q].pending[j]
  {
    hide Ticketed, FlushesOk, QueueOk;
    assert QueuedOn(items, w, p) || RunningOn(items, w, p);
    assert QueuedOn(items, w, q) || RunningOn(items, w, q);
  }

  method FindPending(pending: seq<Node>, n: Node) returns (i: nat)
    requires n in pending
    ensures i < |pending| && pending[i] == n && forall j | 0 <= j < i :: pending[j] != n
  {
    i := 0;
    while pending[i] != n
      invariant i < |pending| && n in pending[i..] && forall j | 0 <= j < i :: pending[j] != n
      decreases |pending| - i
    {
      i := i + 1;
    }
  }
}
