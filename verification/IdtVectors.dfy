/** The allocation of interrupt vectors in arch/x86/gen_idt.py: entries with a vector of their own
    first, then those with only a priority, each to the first free vector of its class of 16,
    then the spurious handlers. */
module IdtVectors {

  /** One entry of the interrupt list; -1 stands for an absent irq, priority or vector. */
  datatype Entry = Entry(handler: nat, irq: int, prio: int, vec: int, dpl: int, tss: nat)

  datatype Gate = Gate(handler: nat, tss: nat, dpl: int)

  datatype Option<+T> = None | Some(value: T)

  datatype Error = Unspecified | VectorTooBig | VectorTaken | IrqTooBig | IrqTaken | ClassFull

  datatype Result = Ok(vectors: seq<Gate>, irqMap: seq<nat>) | Err(error: Error)

  const ERR_CODE_VECTORS := [8, 10, 11, 12, 13, 14, 17]

  function GateOf(e: Entry): Gate {
    Gate(e.handler, e.tss, e.dpl)
  }

  function Spurious(v: nat, code: nat, noCode: nat): Gate {
    Gate(if v in ERR_CODE_VECTORS then code else noCode, 0, 0)
  }

  /** priority_range() */
  predicate InClass(prio: int, v: int) {
    32 + prio * 16 <= v < 32 + prio * 16 + 16
  }

  lemma {:induction false} ClassesDisjoint(p: int, q: int, v: int)
    requires InClass(p, v) && InClass(q, v)
    ensures p == q
  {
  }

  /** The fields are what the build puts there: nothing below -1. */
  ghost predicate WellFormed(list: seq<Entry>) {
    forall i | 0 <= i < |list| :: list[i].irq >= -1 && list[i].vec >= -1 && list[i].prio >= -1
  }

  // ---------------------------------------------------------------- assignments

  type Placing = map<nat, nat>

  /** The vector suits the entry: the one it asks for, or one in its class. */
  predicate Suits(e: Entry, v: nat) {
    if e.vec != -1 then v == e.vec else InClass(e.prio, v)
  }

  /** Every placed entry has a vector that suits it, below the size of the table, and its own. */
  ghost predicate Proper(list: seq<Entry>, maxVec: nat, place: Placing) {
    && (forall i | i in place :: i < |list| && place[i] < maxVec && Suits(list[i], place[i]))
    && (forall i, j | i in place && j in place && i != j :: place[i] != place[j])
  }

  /** An assignment of all entries. */
  ghost predicate Legal(list: seq<Entry>, maxVec: nat, place: Placing) {
    Proper(list, maxVec, place) && forall i | 0 <= i < |list| :: i in place
  }

  /** The entry holds that vector and was dealt with before entry `i` of pass 2. */
  ghost predicate Ahead(list: seq<Entry>, place: Placing, i: nat, v: nat) {
    exists j :: j in place && j < |list| && place[j] == v && (list[j].vec != -1 || j < i)
  }

  /** An entry without a vector of its own gets the first of its class that is left. */
  ghost predicate FirstLeft(list: seq<Entry>, place: Placing, i: nat)
    requires i in place && i < |list|
  {
    list[i].vec == -1 ==> forall v: nat | v < place[i] && InClass(list[i].prio, v) :: Ahead(list, place, i, v)
  }

  ghost predicate Greedy(list: seq<Entry>, place: Placing) {
    forall i | i in place && i < |list| :: FirstLeft(list, place, i)
  }

  /** When an entry is dealt with: explicit vectors first. */
  function Turn(list: seq<Entry>, i: nat): nat
    requires i < |list|
  {
    if list[i].vec != -1 then i else |list| + i
  }

  /** Two entries share an interrupt line only if the one dealt with first sits at vector 0, which
      the code takes for "not configured". */
  ghost predicate LinesClear(list: seq<Entry>) {
    forall i, j | 0 <= i < |list| && 0 <= j < |list| && list[i].irq == list[j].irq != -1 && Turn(list, i) < Turn(list, j) ::
      list[i].vec == 0
  }

  /** What a list must satisfy to be accepted. */
  ghost predicate Acceptable(list: seq<Entry>, maxVec: nat, maxIrq: nat) {
    && (forall i | 0 <= i < |list| :: list[i].vec != -1 || list[i].prio != -1)
    && (forall i | 0 <= i < |list| :: list[i].irq < maxIrq)
    && LinesClear(list)
    && exists place :: Legal(list, maxVec, place)
  }

  // ---------------------------------------------------------------- counting

  lemma {:induction false} Pigeons(r: set<nat>, holes: set<nat>, f: Placing)
    requires forall i | i in r :: i in f && f[i] in holes
    requires forall i, j | i in r && j in r && i != j :: f[i] != f[j]
    ensures |r| <= |holes|
    decreases |r|
  {
    if r != {} {
      var i :| i in r;
      Pigeons(r - {i}, holes - {f[i]}, f);
    }
  }

  /** Some entry has that vector. */
  ghost predicate Taken(place: Placing, v: nat) {
    exists i :: i in place && place[i] == v
  }

  lemma {:induction false} Covered(r: set<nat>, holes: set<nat>, f: Placing)
    requires forall v | v in holes :: TakenBy(f, r, v)
    ensures |holes| <= |r|
    decreases |r|
  {
    if r == {} {
      assert forall v | v in holes :: !TakenBy(f, r, v);
      assert holes == {};
    } else {
      var i :| i in r;
      var rest := if i in f then holes - {f[i]} else holes;
      forall v | v in rest ensures TakenBy(f, r - {i}, v) {
        var j :| j in r && j in f && f[j] == v;
        assert j in r - {i};
      }
      Covered(r - {i}, rest, f);
      assert |holes| <= |rest| + 1 by {
        if i in f && f[i] in holes { assert holes == rest + {f[i]}; } else { assert holes == rest; }
      }
    }
  }

  ghost predicate TakenBy(f: Placing, r: set<nat>, v: nat) {
    exists i :: i in r && i in f && f[i] == v
  }

  ghost predicate Explicit(list: seq<Entry>, v: nat) {
    exists j :: 0 <= j < |list| && list[j].vec == v
  }

  /** The placed entries that asked for a vector of the class. */
  ghost function Asked(list: seq<Entry>, place: Placing, p: int): set<nat> {
    set i | i in place && i < |list| && list[i].vec == -1 && list[i].prio == p
  }

  /** The vectors of the class that no entry asks for by number. */
  ghost function Free(list: seq<Entry>, maxVec: nat, p: int): set<nat> {
    set v: nat | 0 <= v < maxVec && InClass(p, v) && !Explicit(list, v)
  }

  lemma {:induction false} FreeCovered(list: seq<Entry>, maxVec: nat, place: Placing, p: int)
    requires Proper(list, maxVec, place)
    requires forall v: nat | v < maxVec && InClass(p, v) :: Taken(place, v)
    ensures |Free(list, maxVec, p)| <= |Asked(list, place, p)|
  {
    var asked, free := Asked(list, place, p), Free(list, maxVec, p);
    forall v | v in free ensures TakenBy(place, asked, v) {
      assert Taken(place, v);
      var i :| i in place && place[i] == v;
      assert Suits(list[i], v);
      assert list[i].vec != v;
      ClassesDisjoint(p, list[i].prio, v);
      assert i in asked;
    }
    Covered(asked, free, place);
  }

  lemma {:induction false} Elsewhere(list: seq<Entry>, maxVec: nat, other: Placing, i: nat)
    requires Legal(list, maxVec, other) && i < |list| && list[i].vec == -1
    ensures i in other && !Explicit(list, other[i])
  {
    forall j | 0 <= j < |list| ensures list[j].vec != other[i] {
      if list[j].vec != -1 { assert j in other && Suits(list[j], other[j]); }
    }
  }

  lemma {:induction false} AskedFit(list: seq<Entry>, maxVec: nat, r: set<nat>, p: int, other: Placing)
    requires Legal(list, maxVec, other) && forall i | i in r :: i < |list| && list[i].vec == -1 && list[i].prio == p
    ensures |r| <= |Free(list, maxVec, p)|
  {
    var free := Free(list, maxVec, p);
    forall i | i in r ensures i in other && other[i] in free {
      Elsewhere(list, maxVec, other, i);
      assert Suits(list[i], other[i]);
    }
    Pigeons(r, free, other);
  }

  /** If every vector of the class is taken, by explicit entries or by earlier requests for the same
      class, when entry k asks for one, then no assignment of the whole list exists. */
  lemma {:induction false} NoRoom(list: seq<Entry>, maxVec: nat, place: Placing, k: nat)
    requires Proper(list, maxVec, place) && k < |list| && k !in place && list[k].vec == -1
    requires forall v: nat | v < maxVec && InClass(list[k].prio, v) :: Taken(place, v)
    ensures !exists other :: Legal(list, maxVec, other)
  {
    var p := list[k].prio;
    FreeCovered(list, maxVec, place, p);
    var asked := Asked(list, place, p);
    var more := asked + {k};
    assert |more| == |asked| + 1;
    forall other ensures !Legal(list, maxVec, other) {
      if Legal(list, maxVec, other) { AskedFit(list, maxVec, more, p, other); }
    }
  }

  // ---------------------------------------------------------------- the tables being filled

  datatype Tables = Tables(vectors: seq<Option<Gate>>, irqMap: seq<nat>)

  /** The line's vector in the map is that of some entry on the line. */
  ghost predicate Named(list: seq<Entry>, place: Placing, line: nat, v: nat) {
    exists i :: i in place && i < |list| && list[i].irq == line && place[i] == v
  }

  ghost predicate Filled(list: seq<Entry>, maxVec: nat, maxIrq: nat, t: Tables, place: Placing) {
    && |t.vectors| == maxVec && |t.irqMap| == maxIrq
    && Proper(list, maxVec, place)
    && (forall i | i in place :: t.vectors[place[i]] == Some(GateOf(list[i])))
    && (forall v | 0 <= v < maxVec && t.vectors[v].Some? :: Taken(place, v))
    && Lined(list, maxIrq, t.irqMap, place)
  }

  ghost predicate Lined(list: seq<Entry>, maxIrq: nat, irqMap: seq<nat>, place: Placing) {
    && |irqMap| == maxIrq
    && (forall i | i in place :: i < |list| && list[i].irq < maxIrq)
    && (forall i | i in place && list[i].irq >= 0 && place[i] != 0 :: irqMap[list[i].irq] == place[i])
    && (forall l | 0 <= l < maxIrq && irqMap[l] != 0 :: Named(list, place, l, irqMap[l]))
    && (forall i, j | i in place && j in place && list[i].irq == list[j].irq != -1 && Turn(list, i) < Turn(list, j) :: list[i].vec == 0)
  }

  /** Only an explicit vector can be 0: the classes begin at 32. */
  lemma {:induction false} ZeroIsExplicit(e: Entry, v: nat)
    requires Suits(e, v) && e.prio >= -1
    ensures v == 0 <==> e.vec == 0
  {
  }

  /** update_irq_vec_map(), where it does not fail. */
  function Updated(irqMap: seq<nat>, irq: int, v: nat): seq<nat>
    requires irq < |irqMap|
  {
    if irq < 0 then irqMap else irqMap[irq := v]
  }

  lemma {:induction false} AddLine(list: seq<Entry>, maxVec: nat, maxIrq: nat, irqMap: seq<nat>, place: Placing, i: nat, v: nat)
    requires WellFormed(list) && Proper(list, maxVec, place) && Lined(list, maxIrq, irqMap, place)
    requires i < |list| && i !in place && list[i].irq < maxIrq && Suits(list[i], v)
    requires list[i].irq >= 0 ==> irqMap[list[i].irq] == 0
    requires forall j | j in place :: Turn(list, j) < Turn(list, i)
    ensures Lined(list, maxIrq, Updated(irqMap, list[i].irq, v), place[i := v])
  {
    var place', map' := place[i := v], Updated(irqMap, list[i].irq, v);
    forall l | 0 <= l < maxIrq && map'[l] != 0 ensures Named(list, place', l, map'[l]) {
      if l == list[i].irq {
        assert place'[i] == v;
      } else {
        assert Named(list, place, l, irqMap[l]);
        var j :| j in place && j < |list| && list[j].irq == l && place[j] == irqMap[l];
        assert place'[j] == map'[l];
      }
    }
    forall j | j in place && list[j].irq == list[i].irq != -1 ensures list[j].vec == 0 {
      ZeroIsExplicit(list[j], place[j]);
    }
  }

  lemma {:induction false} AddEntry(list: seq<Entry>, maxVec: nat, maxIrq: nat, t: Tables, place: Placing, i: nat, v: nat)
    requires WellFormed(list) && Filled(list, maxVec, maxIrq, t, place)
    requires i < |list| && i !in place && list[i].irq < maxIrq && v < maxVec && Suits(list[i], v)
    requires t.vectors[v] == None && (list[i].irq >= 0 ==> t.irqMap[list[i].irq] == 0)
    requires forall j | j in place :: Turn(list, j) < Turn(list, i)
    ensures Filled(list, maxVec, maxIrq, Tables(t.vectors[v := Some(GateOf(list[i]))], Updated(t.irqMap, list[i].irq, v)), place[i := v])
  {
    hide Lined;
    AddLine(list, maxVec, maxIrq, t.irqMap, place, i, v);
    var place', vectors' := place[i := v], t.vectors[v := Some(GateOf(list[i]))];
    forall u | 0 <= u < maxVec && vectors'[u].Some? ensures Taken(place', u) {
      if u == v {
        assert place'[i] == u;
      } else {
        assert Taken(place, u);
        var j :| j in place && place[j] == u;
        assert place'[j] == u;
      }
    }
  }

  lemma {:induction false} LineClash(list: seq<Entry>, maxVec: nat, maxIrq: nat, t: Tables, place: Placing, i: nat)
    requires WellFormed(list) && Filled(list, maxVec, maxIrq, t, place) && i < |list| && 0 <= list[i].irq < maxIrq
    requires t.irqMap[list[i].irq] != 0 && forall j | j in place :: Turn(list, j) < Turn(list, i)
    ensures !Acceptable(list, maxVec, maxIrq)
  {
    var l := list[i].irq;
    assert Named(list, place, l, t.irqMap[l]);
    var j :| j in place && j < |list| && list[j].irq == l && place[j] == t.irqMap[l];
    ZeroIsExplicit(list[j], place[j]);
    assert Turn(list, j) < Turn(list, i) && list[j].vec != 0;
    assert !LinesClear(list);
  }

  lemma {:induction false} LegalSuits(list: seq<Entry>, maxVec: nat, place: Placing, i: nat)
    requires Legal(list, maxVec, place) && i < |list|
    ensures i in place && place[i] < maxVec && (list[i].vec != -1 ==> place[i] == list[i].vec)
  {
    assert Suits(list[i], place[i]);
  }

  lemma {:induction false} VectorClash(list: seq<Entry>, maxVec: nat, i: nat, j: nat)
    requires i < |list| && j < |list| && i != j && list[i].vec == list[j].vec != -1
    ensures !exists place :: Legal(list, maxVec, place)
  {
    forall place ensures !Legal(list, maxVec, place) {
      if Legal(list, maxVec, place) {
        LegalSuits(list, maxVec, place, i);
        LegalSuits(list, maxVec, place, j);
      }
    }
  }

  lemma {:induction false} VectorOutside(list: seq<Entry>, maxVec: nat, i: nat)
    requires i < |list| && list[i].vec >= maxVec
    ensures !exists place :: Legal(list, maxVec, place)
  {
    forall place ensures !Legal(list, maxVec, place) {
      if Legal(list, maxVec, place) { LegalSuits(list, maxVec, place, i); }
    }
  }

  // ---------------------------------------------------------------- the three passes

  datatype Progress = Going(tables: Tables) | Failed(error: Error)

  /** Writes one entry into both tables: the common end of the loop bodies, with
      update_irq_vec_map(). */
  method Install(list: seq<Entry>, maxVec: nat, maxIrq: nat, t: Tables, i: nat, v: nat, ghost place: Placing) returns (r: Progress)
    requires WellFormed(list) && Filled(list, maxVec, maxIrq, t, place) && i < |list| && i !in place
    requires v < maxVec && Suits(list[i], v) && t.vectors[v] == None
    requires forall j | j in place :: Turn(list, j) < Turn(list, i)
    ensures r.Going? ==> Filled(list, maxVec, maxIrq, r.tables, place[i := v])
    ensures r.Failed? ==> !Acceptable(list, maxVec, maxIrq)
  {
    var e := list[i];
    var vectors := t.vectors[v := Some(GateOf(e))];
    if e.irq == -1 {
      AddEntry(list, maxVec, maxIrq, t, place, i, v);
      return Going(Tables(vectors, t.irqMap));
    }
    if e.irq >= maxIrq { return Failed(IrqTooBig); }
    if t.irqMap[e.irq] != 0 {
      LineClash(list, maxVec, maxIrq, t, place, i);
      return Failed(IrqTaken);
    }
    AddEntry(list, maxVec, maxIrq, t, place, i, v);
    r := Going(Tables(vectors, t.irqMap[e.irq := v]));
  }

  /** Pass 1: vectors that are asked for by number. */
  method PassOne(list: seq<Entry>, maxVec: nat, maxIrq: nat) returns (r: Progress, ghost place: Placing)
    requires WellFormed(list)
    ensures r.Failed? ==> !Acceptable(list, maxVec, maxIrq)
    ensures r.Going? ==>
      && Filled(list, maxVec, maxIrq, r.tables, place)
      && (forall i | 0 <= i < |list| :: i in place <==> list[i].vec != -1)
      && (forall i | 0 <= i < |list| :: list[i].vec != -1 || list[i].prio != -1)
  {
    hide Filled, Acceptable, Lined;
    var t := Tables(seq(maxVec, _ => None), seq(maxIrq, _ => 0));
    place := map[];
    StartFilled(list, maxVec, maxIrq, t);
    for i := 0 to |list|
      invariant Filled(list, maxVec, maxIrq, t, place)
      invariant forall j | 0 <= j < |list| :: j in place <==> j < i && list[j].vec != -1
      invariant forall j | j in place :: j < i
      invariant forall j | 0 <= j < i :: list[j].vec != -1 || list[j].prio != -1
    {
      var e := list[i];
      if e.vec == -1 {
        if e.prio == -1 {
          NotSpecified(list, maxVec, maxIrq, i);
          return Failed(Unspecified), place;
        }
      } else {
        if e.vec >= maxVec {
          VectorOutside(list, maxVec, i);
          NoPlacing(list, maxVec, maxIrq);
          return Failed(VectorTooBig), place;
        }
        FilledSize(list, maxVec, maxIrq, t, place);
        if t.vectors[e.vec] != None {
          TakenTwice(list, maxVec, maxIrq, t, place, i);
          return Failed(VectorTaken), place;
        }
        var p := Install(list, maxVec, maxIrq, t, i, e.vec, place);
        if p.Failed? { return p, place; }
        t := p.tables;
        place := place[i := e.vec];
      }
    }
    r := Going(t);
  }

  /** The first free vector of a class, if there is one below the size of the table. */
  method FirstFree(vectors: seq<Option<Gate>>, prio: int) returns (v: Option<nat>)
    requires prio >= 0
    ensures v.Some? ==> v.value < |vectors| && InClass(prio, v.value) && vectors[v.value] == None
    ensures v.Some? ==> forall u | 0 <= u < v.value && InClass(prio, u) :: vectors[u] != None
    ensures v == None ==> forall u | 0 <= u < |vectors| && InClass(prio, u) :: vectors[u] != None
  {
    var base := 32 + prio * 16;
    for vi := base to base + 16
      invariant forall u | 0 <= u < |vectors| && base <= u < vi :: vectors[u] != None
    {
      if vi >= |vectors| { break; }
      if vectors[vi] == None { return Some(vi); }
    }
    v := None;
  }

  /** Pass 2: vectors by priority. */
  method PassTwo(list: seq<Entry>, maxVec: nat, maxIrq: nat, start: Tables, ghost first: Placing) returns (r: Progress, ghost place: Placing)
    requires WellFormed(list) && Filled(list, maxVec, maxIrq, start, first)
    requires forall i | 0 <= i < |list| :: i in first <==> list[i].vec != -1
    requires forall i | 0 <= i < |list| :: list[i].vec != -1 || list[i].prio != -1
    ensures r.Failed? ==> !Acceptable(list, maxVec, maxIrq)
    ensures r.Going? ==> Filled(list, maxVec, maxIrq, r.tables, place) && Legal(list, maxVec, place)
    ensures r.Going? ==> Greedy(list, place)
  {
    hide Filled, Acceptable, Lined, Proper, Greedy;
    var t := start;
    place := first;
    FilledSize(list, maxVec, maxIrq, t, place);
    ExplicitLeft(list, place);
    for i := 0 to |list|
      invariant Filled(list, maxVec, maxIrq, t, place)
      invariant forall j | 0 <= j < |list| :: j in place <==> j < i || list[j].vec != -1
      invariant forall j | j in place :: j < |list|
      invariant Greedy(list, place)
    {
      var e := list[i];
      if e.vec == -1 {
        FilledSize(list, maxVec, maxIrq, t, place);
        var v := FirstFree(t.vectors, e.prio);
        if v == None {
          AllTaken(list, maxVec, maxIrq, t, place, i);
          return Failed(ClassFull), place;
        }
        var p := Install(list, maxVec, maxIrq, t, i, v.value, place);
        if p.Failed? { return p, place; }
        GreedyStep(list, maxVec, maxIrq, t, place, i, v.value);
        t := p.tables;
        place := place[i := v.value];
      }
    }
    FilledSize(list, maxVec, maxIrq, t, place);
    r := Going(t);
  }

  /** setup_idt().  A list is accepted if and only if it is acceptable.  Then every entry sits at a
      vector of its own that suits it, all others hold the right spurious handler, and the map of
      interrupt lines names only vectors of entries on the line.  It names the vector of every
      entry that has a line if and only if no entry at vector 0 shares its line. */
  method SetupIdt(spurCode: nat, spurNoCode: nat, list: seq<Entry>, maxVec: nat, maxIrq: nat) returns (r: Result, ghost place: Placing)
    requires WellFormed(list)
    ensures r.Ok? <==> Acceptable(list, maxVec, maxIrq)
    ensures r.Ok? ==> Legal(list, maxVec, place) && |r.vectors| == maxVec && |r.irqMap| == maxIrq
    ensures r.Ok? ==> Greedy(list, place)
    ensures r.Ok? ==> forall i | 0 <= i < |list| :: r.vectors[place[i]] == GateOf(list[i])
    ensures r.Ok? ==> forall v | 0 <= v < maxVec && !Taken(place, v) :: r.vectors[v] == Spurious(v, spurCode, spurNoCode)
    ensures r.Ok? ==> forall i | 0 <= i < |list| ::
      var g := r.vectors[place[i]]; g.handler == list[i].handler && g.tss == list[i].tss && g.dpl == list[i].dpl
    ensures r.Ok? ==> forall i | 0 <= i < |list| ::
      if list[i].vec != -1 then place[i] == list[i].vec else 32 + 16 * list[i].prio <= place[i] <= 47 + 16 * list[i].prio
    ensures r.Ok? ==> forall v | 0 <= v < maxVec && !Taken(place, v) ::
      var g := r.vectors[v];
      g.tss == 0 && g.dpl == 0 && g.handler == if v == 8 || 10 <= v <= 14 || v == 17 then spurCode else spurNoCode
    ensures r.Ok? ==> forall l | 0 <= l < maxIrq && r.irqMap[l] != 0 :: Named(list, place, l, r.irqMap[l])
    ensures r.Ok? ==>
      ((forall i | 0 <= i < |list| && list[i].irq != -1 :: r.irqMap[list[i].irq] == place[i]) <==> !Shadowed(list))
  {
    hide Acceptable;
    var p, first := PassOne(list, maxVec, maxIrq);
    place := first;
    if p.Failed? { return Err(p.error), place; }
    var q;
    q, place := PassTwo(list, maxVec, maxIrq, p.tables, first);
    if q.Failed? { return Err(q.error), place; }
    var vectors: seq<Gate> := [];
    for i := 0 to maxVec
      invariant |vectors| == i
      invariant forall v | 0 <= v < i ::
        vectors[v] == if q.tables.vectors[v].Some? then q.tables.vectors[v].value else Spurious(v, spurCode, spurNoCode)
    {
      vectors := vectors + [
        if q.tables.vectors[i].Some? then q.tables.vectors[i].value else Spurious(i, spurCode, spurNoCode)];
    }
    AllAccepted(list, maxVec, maxIrq, q.tables, place);
    MapNames(list, maxVec, maxIrq, q.tables, place);
    Filling(list, maxVec, maxIrq, q.tables, place, vectors, spurCode, spurNoCode);
    hide *;
    r := Ok(vectors, q.tables.irqMap);
  }

  /** What the finished table holds, field by field. */
  lemma {:induction false} Filling(
    list: seq<Entry>, maxVec: nat, maxIrq: nat, t: Tables, place: Placing, vectors: seq<Gate>, spurCode: nat, spurNoCode: nat)
    requires Filled(list, maxVec, maxIrq, t, place) && Legal(list, maxVec, place) && |vectors| == maxVec
    requires forall v | 0 <= v < maxVec ::
      vectors[v] == if t.vectors[v].Some? then t.vectors[v].value else Spurious(v, spurCode, spurNoCode)
    ensures forall i | 0 <= i < |list| :: vectors[place[i]] == GateOf(list[i])
    ensures forall v | 0 <= v < maxVec && !Taken(place, v) :: vectors[v] == Spurious(v, spurCode, spurNoCode)
    ensures forall l | 0 <= l < maxIrq && t.irqMap[l] != 0 :: Named(list, place, l, t.irqMap[l])
    ensures forall i | 0 <= i < |list| ::
      var g := vectors[place[i]]; g.handler == list[i].handler && g.tss == list[i].tss && g.dpl == list[i].dpl
    ensures forall i | 0 <= i < |list| ::
      if list[i].vec != -1 then place[i] == list[i].vec else 32 + 16 * list[i].prio <= place[i] <= 47 + 16 * list[i].prio
    ensures forall v | 0 <= v < maxVec && !Taken(place, v) ::
      var g := vectors[v];
      g.tss == 0 && g.dpl == 0 && g.handler == if v == 8 || 10 <= v <= 14 || v == 17 then spurCode else spurNoCode
  {
    hide Named, Taken;
    forall v | 0 <= v < maxVec && !Taken(place, v) ensures !t.vectors[v].Some? { }
    forall v: nat ensures v in ERR_CODE_VECTORS <==> v == 8 || 10 <= v <= 14 || v == 17 { ErrorCodes(v); }
  }

  /** The exceptions for which the processor pushes an error code. */
  lemma {:induction false} ErrorCodes(v: nat)
    ensures v in ERR_CODE_VECTORS <==> v == 8 || 10 <= v <= 14 || v == 17
  {
  }

  /** An entry at vector 0 shares its interrupt line with another. */
  ghost predicate Shadowed(list: seq<Entry>) {
    exists i, j :: 0 <= i < |list| && 0 <= j < |list| && i != j && list[i].irq == list[j].irq != -1 && list[i].vec == 0
  }

  lemma {:induction false} ExplicitLeft(list: seq<Entry>, place: Placing)
    requires forall i | i in place :: i < |list| && list[i].vec != -1
    ensures Greedy(list, place)
  {
  }

  lemma {:induction false} GreedyStep(list: seq<Entry>, maxVec: nat, maxIrq: nat, t: Tables, place: Placing, i: nat, v: nat)
    requires Filled(list, maxVec, maxIrq, t, place) && i < |list| && i !in place && list[i].vec == -1
    requires Greedy(list, place) && forall j | j in place :: j < |list| && (list[j].vec != -1 || j < i)
    requires v < maxVec && forall u | 0 <= u < v && InClass(list[i].prio, u) :: t.vectors[u] != None
    ensures Greedy(list, place[i := v])
  {
    hide Lined;
    var place' := place[i := v];
    forall j, u: nat | j in place && Ahead(list, place, j, u) ensures Ahead(list, place', j, u) {
      var k :| k in place && k < |list| && place[k] == u && (list[k].vec != -1 || k < j);
      assert place'[k] == u;
    }
    forall u: nat | u < v && InClass(list[i].prio, u) ensures Ahead(list, place', i, u) {
      assert Taken(place, u);
      var k :| k in place && place[k] == u;
      assert place'[k] == u;
    }
    forall j | j in place' ensures FirstLeft(list, place', j) {
      if j != i { assert FirstLeft(list, place, j); }
    }
  }

  lemma {:induction false} StartFilled(list: seq<Entry>, maxVec: nat, maxIrq: nat, t: Tables)
    requires t == Tables(seq(maxVec, _ => None), seq(maxIrq, _ => 0))
    ensures Filled(list, maxVec, maxIrq, t, map[])
  {
  }

  lemma {:induction false} FilledSize(list: seq<Entry>, maxVec: nat, maxIrq: nat, t: Tables, place: Placing)
    requires Filled(list, maxVec, maxIrq, t, place)
    ensures |t.vectors| == maxVec && |t.irqMap| == maxIrq && Proper(list, maxVec, place)
    ensures forall i | i in place :: i < |list|
  {
    hide Lined;
  }

  lemma {:induction false} NotSpecified(list: seq<Entry>, maxVec: nat, maxIrq: nat, i: nat)
    requires i < |list| && list[i].vec == -1 && list[i].prio == -1
    ensures !Acceptable(list, maxVec, maxIrq)
  {
  }

  lemma {:induction false} NoPlacing(list: seq<Entry>, maxVec: nat, maxIrq: nat)
    requires !exists place :: Legal(list, maxVec, place)
    ensures !Acceptable(list, maxVec, maxIrq)
  {
  }

  lemma {:induction false} TakenTwice(list: seq<Entry>, maxVec: nat, maxIrq: nat, t: Tables, place: Placing, i: nat)
    requires Filled(list, maxVec, maxIrq, t, place) && i < |list| && i !in place && 0 <= list[i].vec < maxVec
    requires t.vectors[list[i].vec].Some? && forall j | j in place :: j < |list| && list[j].vec != -1
    ensures !Acceptable(list, maxVec, maxIrq)
  {
    hide Lined;
    assert Taken(place, list[i].vec);
    var j :| j in place && place[j] == list[i].vec;
    assert Suits(list[j], place[j]);
    VectorClash(list, maxVec, i, j);
  }

  lemma {:induction false} AllTaken(list: seq<Entry>, maxVec: nat, maxIrq: nat, t: Tables, place: Placing, k: nat)
    requires Filled(list, maxVec, maxIrq, t, place) && k < |list| && k !in place && list[k].vec == -1
    requires forall u | 0 <= u < |t.vectors| && InClass(list[k].prio, u) :: t.vectors[u] != None
    ensures !Acceptable(list, maxVec, maxIrq)
  {
    hide Lined;
    NoRoom(list, maxVec, place, k);
  }

  lemma {:induction false} AllAccepted(list: seq<Entry>, maxVec: nat, maxIrq: nat, t: Tables, place: Placing)
    requires Filled(list, maxVec, maxIrq, t, place) && Legal(list, maxVec, place)
    requires forall i | 0 <= i < |list| :: list[i].vec != -1 || list[i].prio != -1
    ensures Acceptable(list, maxVec, maxIrq)
  {
  }

  lemma {:induction false} ShadowedBy(list: seq<Entry>, i: nat, j: nat)
    requires i < |list| && j < |list| && i != j && list[i].irq == list[j].irq != -1 && list[i].vec == 0
    ensures Shadowed(list)
  {
  }

  lemma {:induction false} MapNames(list: seq<Entry>, maxVec: nat, maxIrq: nat, t: Tables, place: Placing)
    requires WellFormed(list) && Filled(list, maxVec, maxIrq, t, place) && Legal(list, maxVec, place)
    ensures forall i | 0 <= i < |list| :: list[i].irq < maxIrq
    ensures (forall i | 0 <= i < |list| && list[i].irq != -1 :: t.irqMap[list[i].irq] == place[i]) <==> !Shadowed(list)
  {
    if Shadowed(list) {
      var i, j :| 0 <= i < |list| && 0 <= j < |list| && i != j && list[i].irq == list[j].irq != -1 && list[i].vec == 0;
      assert i in place && j in place && place[i] != place[j];
    } else {
      forall i | 0 <= i < |list| && list[i].irq != -1 ensures t.irqMap[list[i].irq] == place[i] {
        var l := list[i].irq;
        assert i in place && Suits(list[i], place[i]);
        ZeroIsExplicit(list[i], place[i]);
        if place[i] == 0 && t.irqMap[l] != 0 {
          assert Named(list, place, l, t.irqMap[l]);
          var j :| j in place && j < |list| && list[j].irq == l && place[j] == t.irqMap[l];
          ShadowedBy(list, i, j);
        }
      }
    }
  }

  /** Two entries on line 3, at vectors 0 and 40: the list is acceptable, yet shadowed. */
  lemma {:induction false} ShadowExample(e: Entry, f: Entry)
    requires e.irq == f.irq == 3 && e.vec == 0 && f.vec == 40
    ensures Acceptable([e, f], 64, 8) && Shadowed([e, f])
  {
    var list, place := [e, f], map[0 := 0, 1 := 40];
    assert Suits(list[0], place[0]) && Suits(list[1], place[1]);
    assert Legal(list, 64, place);
    assert list[0].irq == list[1].irq && list[0].vec == 0;
  }
}
